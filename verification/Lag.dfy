/** No false confirmation on a target with bounded lag.

    The sweeper of SweepRuns is run against the naive oracle of OracleShard and a target that is
    behind: a re-read at time t may show any value the key was expected to hold at some instant of
    [t - 2W, t]. Events, marks, clears, clock ticks, sweeps and confirm cycles interleave freely.

    The code lists a settled key in one critical section and captures the version it will compare
    against in another. An event that changes the key between the two is the only way to a false
    confirmation, and it is one. */
module Lag {
  import opened Events
  import opened OracleShard
  import opened Differ
  import opened Sweepers
  import opened Detection
  import opened SweepRuns

  /** One applied mutation of a key: version i of the key is stamp i - 1. */
  datatype Stamp = Stamp(at: Time, value: Value)

  datatype Params = Params(setup: Setup, w: nat, never: nat)

  /** What a sweep that began at `at` captured of a key. */
  datatype Capture = Capture(key: Key, version: nat, at: Time)

  /** When a cycle last re-read a key, and how many mutations the key had seen by then. */
  datatype Reading = Reading(at: Time, len: nat)

  /** `listedAt` is the version of each key when the running sweep listed it. `raced` are the captures of
      the run that raced with an event. */
  datatype Sys = Sys(
    now: Time,
    records: map<Key, Record>,
    history: map<Key, seq<Stamp>>,
    world: World,
    listedAt: map<Key, nat>,
    raced: set<Capture>,
    rereads: map<nat, Reading>)

  function CaptureOf(c: Candidate): Capture { Capture(c.Key(), c.version, c.seenAt) }

  function ReadingOf(rereads: map<nat, Reading>, i: nat): Reading { if i in rereads then rereads[i] else Reading(0, 0) }

  datatype Move =
    | Tick(to: Time)
    | Apply(m: Mutation, trust: Trust)
    | MarkKeys(matches: Key -> bool)
    | ClearKeys(matches: Key -> bool)
    | Do(act: Act)

  function ValueAt(h: seq<Stamp>, version: nat): Value
    requires version <= |h|
  {
    if version == 0 then Absent else h[version - 1].value
  }

  /** Version i was still current at some instant at or after t. */
  predicate CurrentSince(h: seq<Stamp>, i: nat, t: Time) { i <= |h| && (i == |h| || h[i].at >= t) }

  /** A read at time t of a target at most `lag` behind. */
  ghost predicate Lagged(h: seq<Stamp>, t: Time, lag: int, v: Value) {
    exists i: nat :: CurrentSince(h, i, t - lag) && v.Equal(ValueAt(h, i))
  }

  /** The value of this version has been the expected one since before t. */
  ghost predicate HeldSince(h: seq<Stamp>, version: nat, t: Time) {
    1 <= version <= |h| && exists j: nat :: HeldFrom(h, version, j) && h[j - 1].at < t
  }

  ghost predicate HeldFrom(h: seq<Stamp>, version: nat, j: nat) {
    1 <= j <= version <= |h| && forall i: nat {:trigger ValueAt(h, i)} :: j <= i <= version ==>
      ValueAt(h, i).Equal(ValueAt(h, version))
  }

  /** The version's value has been the expected one from mutation j on, and was not before it. */
  ghost predicate BeginsAt(h: seq<Stamp>, version: nat, j: nat) {
    HeldFrom(h, version, j) && (j > 1 ==> !ValueAt(h, j - 1).Equal(ValueAt(h, version)))
  }

  /** Version i was still the expected one at or after t, and its value is not that of `version`. */
  predicate Shows(h: seq<Stamp>, version: nat, i: nat, t: Time) {
    i < version <= |h| && h[i].at >= t && !ValueAt(h, i).Equal(ValueAt(h, version))
  }

  /** A target that is behind may still show something other than this version at t. */
  ghost predicate Showable(h: seq<Stamp>, version: nat, t: Time) { exists i: nat :: Shows(h, version, i, t) }

  function VersionOf(r: Option<Record>): Option<nat> { if r.Some? then Some(r.value.version) else None }

  /** What the sweeper is shown is what the oracle holds and what a lagging target holds. */
  ghost predicate Shown(p: Params, s: Sys, a: Act)
    requires Enabled(s.world, a)
  {
    match a
    case StartSweep(at, w) => at == s.now && w == p.w
    case ListKey(k) => k in s.records && Settled(s.records[k], s.world.sweep.value.at, p.w, p.never)
    case Batch(k, e) => e == Lookup(s.records, k)
    case CompareKeys(k, e) => e == Lookup(s.records, k)
    case StartCycle(now) => now <= s.now
    case CheckVersion(i, v) => v == VersionOf(Lookup(s.records, s.world.cycles[i].due[0].Key()))
    case RereadKey(i, read) =>
      read.Failed? || (read.Got? && Lagged(HistoryOf(s, s.world.cycles[i].due[0].Key()), s.now, 2 * p.w, read.value))
    case Judge(i, e) => e == Lookup(s.records, s.world.cycles[i].due[0].Key())
    case _ => true
  }

  function HistoryOf(s: Sys, k: Key): seq<Stamp> { if k in s.history then s.history[k] else [] }

  ghost predicate CanMove(p: Params, s: Sys, m: Move) {
    match m
    case Tick(to) => s.now <= to
    case Apply(mut, trust) => !mut.action.Nothing?
    case Do(a) => Enabled(s.world, a) && Shown(p, s, a)
    case _ => true
  }

  /** A capture races when another value was still expected less than a window before the sweep began.
      The sweep lists only settled keys, so an event must have changed the key in between. */
  ghost predicate Races(p: Params, s: Sys, k: Key, e: Option<Record>)
    requires s.world.sweep.Some?
  {
    e.Some? && !e.value.flag.Adopted? && Showable(HistoryOf(s, k), e.value.version, s.world.sweep.value.at - p.w)
  }

  ghost function Move1(p: Params, s: Sys, m: Move): Sys
    requires m.Apply? ==> !m.m.action.Nothing?
    requires m.Do? ==> Enabled(s.world, m.act)
  {
    match m
    case Tick(to) => s.(now := to)
    case Apply(mut, trust) =>
      var r := Written(Lookup(s.records, mut.key), mut, s.now, trust);
      s.(records := s.records[mut.key := r],
         history := s.history[mut.key := HistoryOf(s, mut.key) + [Stamp(s.now, r.value)]])
    case MarkKeys(matches) => s.(records := MarkRecords(s.records, matches))
    case ClearKeys(matches) => s.(records := ClearRecords(s.records, matches))
    case Do(a) =>
      var s' := s.(world := Step(p.setup, s.world, a));
      match a
      case StartSweep(_, _) => s'.(listedAt := map[])
      case ListKey(k) => s'.(listedAt := s.listedAt[k := if k in s.records then s.records[k].version else 0])
      case Batch(k, e) =>
        if Races(p, s, k, e) then s'.(raced := s.raced + {Capture(k, e.value.version, s.world.sweep.value.at)}) else s'
      case RereadKey(i, _) =>
        s'.(rereads := s.rereads[i := Reading(s.now, |HistoryOf(s, s.world.cycles[i].due[0].Key())|)])
      case _ => s'
  }

  ghost predicate AllMoves(p: Params, s: Sys, ms: seq<Move>)
    decreases |ms|
  {
    ms == [] || (CanMove(p, s, ms[0]) && AllMoves(p, Move1(p, s, ms[0]), ms[1..]))
  }

  ghost function RunMoves(p: Params, s: Sys, ms: seq<Move>): Sys
    requires AllMoves(p, s, ms)
    decreases |ms|
  {
    if ms == [] then s else RunMoves(p, Move1(p, s, ms[0]), ms[1..])
  }

  // ---------------------------------------------------------------- invariant

  /** The record of a key is what its history says. */
  ghost predicate RecordOk(r: Record, h: seq<Stamp>, now: Time) {
    && |h| >= 1 && r.version == |h| && r.value == h[|h| - 1].value && r.lastEventAt == h[|h| - 1].at
    && (forall i, j :: 0 <= i <= j < |h| ==> h[i].at <= h[j].at <= now)
    && r.createdAt == h[0].at && r.lastValueChangeAt.Some?
    && exists j: nat :: BeginsAt(h, |h|, j) && h[j - 1].at == r.lastValueChangeAt.value
  }

  type Histories = map<Key, seq<Stamp>>

  /** A claim about version v of key k that a sweep at `at` rests on. */
  ghost predicate Grounded(hs: Histories, raced: set<Capture>, k: Key, v: nat, at: Time, w: int) {
    k in hs && v <= |hs[k]| && (Capture(k, v, at) in raced || !Showable(hs[k], v, at - w))
  }

  ghost predicate ItemGrounded(p: Params, hs: Histories, raced: set<Capture>, listedAt: map<Key, nat>, k: Key,
      i: Item, at: Time) {
    match i
    case Listed => k in listedAt && k in hs && 1 <= listedAt[k] <= |hs[k]| && !Showable(hs[k], listedAt[k], at - p.w)
    case Batched(v) => Grounded(hs, raced, k, v, at, p.w)
    case WasRead(v, _) => Grounded(hs, raced, k, v, at, p.w)
    case ToEnqueue(v, f) => Grounded(hs, raced, k, v, at, p.w) && f.key == k
    case ToRefresh(_) => true
  }

  ghost predicate CandidateGrounded(p: Params, hs: Histories, raced: set<Capture>, c: Candidate) {
    c.window == p.w && Grounded(hs, raced, c.Key(), c.version, c.seenAt, p.w)
  }

  ghost predicate AllGrounded(p: Params, hs: Histories, raced: set<Capture>, q: seq<Candidate>) {
    forall c {:trigger CandidateGrounded(p, hs, raced, c)} :: c in q ==> CandidateGrounded(p, hs, raced, c)
  }

  ghost predicate HeadGrounded(p: Params, hs: Histories, raced: set<Capture>, r: Reading, c: Candidate, h: Head,
      now: Time) {
    match h
    case Reread(read) =>
      && read.Got? && c.Key() in hs && now <= r.at
      && c.version <= r.len <= |hs[c.Key()]|
      && Lagged(hs[c.Key()][..r.len], r.at, 2 * p.w, read.value)
    case ToConfirm(_) => CaptureOf(c) in raced
    case _ => true
  }

  ghost predicate OracleOk(records: map<Key, Record>, hs: Histories, now: Time) {
    records.Keys == hs.Keys &&
    forall k {:trigger RecordOk(records[k], hs[k], now)} :: k in records && k in hs ==> RecordOk(records[k], hs[k], now)
  }

  ghost predicate ItemsGrounded(p: Params, hs: Histories, raced: set<Capture>, listedAt: map<Key, nat>,
      items: map<Key, Item>, at: Time) {
    forall k {:trigger ItemGrounded(p, hs, raced, listedAt, k, items[k], at)} ::
      k in items ==> ItemGrounded(p, hs, raced, listedAt, k, items[k], at)
  }

  ghost predicate SweepOk(p: Params, hs: Histories, raced: set<Capture>, listedAt: map<Key, nat>, sweep: Option<Pass>) {
    sweep.Some? ==> sweep.value.w == p.w && ItemsGrounded(p, hs, raced, listedAt, sweep.value.items, sweep.value.at)
  }

  ghost predicate CycleGrounded(p: Params, hs: Histories, raced: set<Capture>, r: Reading, cy: Cycle, now: Time) {
    && cy.now <= now
    && AllGrounded(p, hs, raced, cy.due)
    && (forall c :: c in cy.due ==> c.DueAt() <= cy.now)
    && (cy.due != [] ==> HeadGrounded(p, hs, raced, r, cy.due[0], cy.head, cy.now))
  }

  ghost predicate CyclesGrounded(
    p: Params, hs: Histories, raced: set<Capture>, rereads: map<nat, Reading>, cycles: seq<Cycle>, now: Time)
  {
    forall i: nat {:trigger CycleGrounded(p, hs, raced, ReadingOf(rereads, i), cycles[i], now)} ::
      i < |cycles| ==> CycleGrounded(p, hs, raced, ReadingOf(rereads, i), cycles[i], now)
  }

  ghost predicate AllRaced(m: map<Key, Confirmation>, raced: set<Capture>) {
    forall k :: k in m ==> CaptureOf(m[k].candidate) in raced
  }

  /** Every episode was opened and last confirmed by a raced capture, and nothing was confirmed before
      a race. */
  ghost predicate NoFalseEpisode(w: World, raced: set<Capture>) {
    AllRaced(w.openedBy, raced) && AllRaced(w.lastBy, raced) && (w.core.stats.confirmations > 0 ==> raced != {})
  }

  /** What is recorded as raced did race. */
  ghost predicate TrulyRaced(p: Params, hs: Histories, raced: set<Capture>) {
    forall x {:trigger x in raced} :: x in raced ==> x.key in hs && Showable(hs[x.key], x.version, x.at - p.w)
  }

  ghost predicate Inv(p: Params, s: Sys) {
    && TrulyRaced(p, s.history, s.raced)
    && OracleOk(s.records, s.history, s.now)
    && SweepOk(p, s.history, s.raced, s.listedAt, s.world.sweep)
    && AllGrounded(p, s.history, s.raced, s.world.core.queue)
    && CyclesGrounded(p, s.history, s.raced, s.rereads, s.world.cycles, s.now)
    && NoFalseEpisode(s.world, s.raced)
  }

  // ---------------------------------------------------------------- facts about histories

  /** A key either clause of the settlement test lets through has held its value past the window. */
  lemma SettledIsHeld(p: Params, r: Record, h: seq<Stamp>, now: Time, at: Time)
    requires RecordOk(r, h, now) && p.w <= p.never && Settled(r, at, p.w, p.never)
    ensures HeldSince(h, r.version, at - p.w)
  {
    if r.lastEventAt < at - p.w {
      assert HeldFrom(h, |h|, |h|);
    }
  }

  lemma BeginsEarliest(h: seq<Stamp>, version: nat, j: nat, i: nat)
    requires BeginsAt(h, version, j) && HeldFrom(h, version, i)
    ensures j <= i
  {
  }

  /** Exactly which keys are settled: those that have been quiet for longer than the window, and those
      whose value has been held for longer than the threshold, however often it was written again. */
  lemma SettledIff(r: Record, h: seq<Stamp>, now: Time, at: Time, w: int, never: int)
    requires RecordOk(r, h, now)
    ensures Settled(r, at, w, never) <==> h[|h| - 1].at < at - w || HeldSince(h, |h|, at - never)
  {
    var j: nat :| BeginsAt(h, |h|, j) && h[j - 1].at == r.lastValueChangeAt.value;
    if HeldSince(h, |h|, at - never) {
      var i: nat :| HeldFrom(h, |h|, i) && h[i - 1].at < at - never;
      BeginsEarliest(h, |h|, j, i);
      assert h[j - 1].at <= h[i - 1].at;
    }
  }

  /** A value held since before t leaves nothing else to show at t. */
  lemma HeldIsNotShowable(h: seq<Stamp>, version: nat, t: Time)
    requires HeldSince(h, version, t) && forall i, j :: 0 <= i <= j < |h| ==> h[i].at <= h[j].at
    ensures !Showable(h, version, t)
  {
    var j: nat :| HeldFrom(h, version, j) && h[j - 1].at < t;
    forall i: nat
      ensures !Shows(h, version, i, t)
    {
      if i < version <= |h| && h[i].at >= t {
        assert i >= j;
        assert ValueAt(h, i).Equal(ValueAt(h, version));
      }
    }
  }

  /** The heart of the matter: where nothing else is left to show, a lagged read shows the version. */
  lemma LaggedReadAgrees(h: seq<Stamp>, t: Time, lag: int, v: Value)
    requires Lagged(h, t, lag, v) && !Showable(h, |h|, t - lag)
    ensures ValueAt(h, |h|).Equal(v)
  {
    var i: nat :| CurrentSince(h, i, t - lag) && v.Equal(ValueAt(h, i));
    assert !Shows(h, |h|, i, t - lag);
    EqualTrans(v, ValueAt(h, i), ValueAt(h, |h|));
  }

  lemma EqualTrans(a: Value, b: Value, c: Value)
    requires a.Equal(b)
    ensures b.Equal(c) ==> a.Equal(c) && c.Equal(a)
  {
  }

  /** What is showable of a version is settled by the mutations up to it. */
  lemma ShowableLonger(h: seq<Stamp>, h': seq<Stamp>, version: nat, t: Time)
    requires h <= h' && version <= |h|
    ensures Showable(h, version, t) <==> Showable(h', version, t)
  {
    forall i: nat
      ensures Shows(h, version, i, t) <==> Shows(h', version, i, t)
    {
      if i < version {
        assert h'[i] == h[i] && ValueAt(h', i) == ValueAt(h, i) && ValueAt(h', version) == ValueAt(h, version);
      }
    }
  }

  /** As time goes by less is showable. */
  lemma ShowableEarlier(h: seq<Stamp>, version: nat, t: Time, t': Time)
    requires Showable(h, version, t') && t <= t'
    ensures Showable(h, version, t)
  {
    var i: nat :| Shows(h, version, i, t');
    assert Shows(h, version, i, t);
  }

  // ---------------------------------------------------------------- the environment moves

  /** Histories only grow, so what was grounded stays grounded. */
  ghost predicate Grows(hs: Histories, hs': Histories) {
    forall k :: k in hs ==> k in hs' && hs[k] <= hs'[k]
  }

  lemma GroundedGrows(hs: Histories, hs': Histories, raced: set<Capture>, raced': set<Capture>, k: Key, v: nat,
      at: Time, w: int)
    requires Grows(hs, hs') && raced <= raced' && Grounded(hs, raced, k, v, at, w)
    ensures Grounded(hs', raced', k, v, at, w)
  {
    ShowableLonger(hs[k], hs'[k], v, at - w);
  }

  lemma RacedGrows(p: Params, hs: Histories, hs': Histories, raced: set<Capture>)
    requires Grows(hs, hs') && TrulyRaced(p, hs, raced)
    ensures TrulyRaced(p, hs', raced)
  {
    forall x | x in raced
      ensures x.key in hs' && Showable(hs'[x.key], x.version, x.at - p.w)
    {
      ShowableLonger(hs[x.key], hs'[x.key], x.version, x.at - p.w);
    }
  }

  lemma ItemGrows(p: Params, hs: Histories, hs': Histories, raced: set<Capture>, raced': set<Capture>,
      listedAt: map<Key, nat>, k: Key, i: Item, at: Time)
    requires Grows(hs, hs') && raced <= raced' && ItemGrounded(p, hs, raced, listedAt, k, i, at)
    ensures ItemGrounded(p, hs', raced', listedAt, k, i, at)
  {
    match i
    case Listed => ShowableLonger(hs[k], hs'[k], listedAt[k], at - p.w);
    case Batched(v) => GroundedGrows(hs, hs', raced, raced', k, v, at, p.w);
    case WasRead(v, _) => GroundedGrows(hs, hs', raced, raced', k, v, at, p.w);
    case ToEnqueue(v, _) => GroundedGrows(hs, hs', raced, raced', k, v, at, p.w);
    case ToRefresh(_) =>
  }

  lemma AllGrow(p: Params, hs: Histories, hs': Histories, raced: set<Capture>, raced': set<Capture>, q: seq<Candidate>)
    requires Grows(hs, hs') && raced <= raced' && AllGrounded(p, hs, raced, q)
    ensures AllGrounded(p, hs', raced', q)
  {
    forall c | c in q
      ensures CandidateGrounded(p, hs', raced', c)
    {
      assert CandidateGrounded(p, hs, raced, c);
      GroundedGrows(hs, hs', raced, raced', c.Key(), c.version, c.seenAt, p.w);
    }
  }

  lemma CycleGrows(p: Params, hs: Histories, hs': Histories, raced: set<Capture>, raced': set<Capture>, r: Reading,
                   cy: Cycle, now: Time, now': Time)
    requires Grows(hs, hs') && raced <= raced' && now <= now' && CycleGrounded(p, hs, raced, r, cy, now)
    ensures CycleGrounded(p, hs', raced', r, cy, now')
  {
    AllGrow(p, hs, hs', raced, raced', cy.due);
    if cy.due != [] && cy.head.Reread? {
      var k := cy.due[0].Key();
      assert hs'[k][..r.len] == hs[k][..r.len];
    }
  }

  lemma CyclesGrow(p: Params, hs: Histories, hs': Histories, raced: set<Capture>, raced': set<Capture>,
                   rereads: map<nat, Reading>, cycles: seq<Cycle>, now: Time, now': Time)
    requires Grows(hs, hs') && raced <= raced' && now <= now' && CyclesGrounded(p, hs, raced, rereads, cycles, now)
    ensures CyclesGrounded(p, hs', raced', rereads, cycles, now')
  {
    forall i: nat | i < |cycles|
      ensures CycleGrounded(p, hs', raced', ReadingOf(rereads, i), cycles[i], now')
    {
      assert CycleGrounded(p, hs, raced, ReadingOf(rereads, i), cycles[i], now);
      CycleGrows(p, hs, hs', raced, raced', ReadingOf(rereads, i), cycles[i], now, now');
    }
  }

  lemma SweepGrows(p: Params, hs: Histories, hs': Histories, raced: set<Capture>, raced': set<Capture>,
      listedAt: map<Key, nat>, sweep: Option<Pass>)
    requires Grows(hs, hs') && raced <= raced' && SweepOk(p, hs, raced, listedAt, sweep)
    ensures SweepOk(p, hs', raced', listedAt, sweep)
  {
    if sweep.Some? {
      var items, at := sweep.value.items, sweep.value.at;
      forall k | k in items
        ensures ItemGrounded(p, hs', raced', listedAt, k, items[k], at)
      {
        assert ItemGrounded(p, hs, raced, listedAt, k, items[k], at);
        ItemGrows(p, hs, hs', raced, raced', listedAt, k, items[k], at);
      }
    }
  }

  /** Applying a mutation extends the history by what the record now says. */
  lemma WrittenOk(prev: Option<Record>, h: seq<Stamp>, m: Mutation, now: Time, trust: Trust)
    requires !m.action.Nothing? && (if prev.Some? then RecordOk(prev.value, h, now) else h == [])
    ensures var r := Written(prev, m, now, trust); RecordOk(r, h + [Stamp(now, r.value)], now)
  {
    var r := Written(prev, m, now, trust);
    var h' := h + [Stamp(now, r.value)];
    if prev.Some? && prev.value.value.Equal(r.value) {
      var j: nat :| BeginsAt(h, |h|, j) && h[j - 1].at == prev.value.lastValueChangeAt.value;
      forall i: nat | j <= i <= |h'|
        ensures ValueAt(h', i).Equal(ValueAt(h', |h'|))
      {
        if i <= |h| {
          assert ValueAt(h, i).Equal(ValueAt(h, |h|));
          assert ValueAt(h', i) == ValueAt(h, i);
        }
      }
      assert HeldFrom(h', |h'|, j) && h'[j - 1] == h[j - 1];
      EqualTrans(ValueAt(h, |h|), r.value, ValueAt(h, j - 1));
      assert BeginsAt(h', |h'|, j);
    } else {
      assert BeginsAt(h', |h'|, |h'|);
    }
  }

  lemma AppliedOk(p: Params, s: Sys, m: Mutation, trust: Trust)
    requires OracleOk(s.records, s.history, s.now) && !m.action.Nothing?
    ensures var s' := Move1(p, s, Apply(m, trust));
      OracleOk(s'.records, s'.history, s'.now) && Grows(s.history, s'.history)
  {
    var k, h := m.key, if m.key in s.history then s.history[m.key] else [];
    if k in s.records {
      assert RecordOk(s.records[k], s.history[k], s.now);
    }
    WrittenOk(Lookup(s.records, k), h, m, s.now, trust);
    var s' := Move1(p, s, Apply(m, trust));
    forall x | x in s'.records
      ensures x in s'.history && RecordOk(s'.records[x], s'.history[x], s'.now)
    {
      assert x != k ==> s'.records[x] == s.records[x] && s'.history[x] == s.history[x];
      assert x != k ==> RecordOk(s.records[x], s.history[x], s.now);
    }
  }

  /** Neither time passing nor a change of flags disturbs what a record says of its history. */
  lemma FlagsOk(records: map<Key, Record>, records': map<Key, Record>, hs: Histories, now: Time, now': Time)
    requires OracleOk(records, hs, now) && now <= now' && records'.Keys == records.Keys
    requires forall k :: k in records ==> records'[k] == records[k].(flag := records'[k].flag)
    ensures OracleOk(records', hs, now')
  {
    forall k | k in records'
      ensures RecordOk(records'[k], hs[k], now')
    {
      assert RecordOk(records[k], hs[k], now);
    }
  }

  lemma OracleMoves(p: Params, s: Sys, m: Move)
    requires OracleOk(s.records, s.history, s.now) && CanMove(p, s, m) && !m.Do?
    ensures var s' := Move1(p, s, m); OracleOk(s'.records, s'.history, s'.now) && Grows(s.history, s'.history)
  {
    if m.Apply? {
      AppliedOk(p, s, m.m, m.trust);
    } else {
      var s' := Move1(p, s, m);
      FlagsOk(s.records, s'.records, s.history, s.now, s'.now);
    }
  }

  lemma EnvironmentInv(p: Params, s: Sys, m: Move)
    requires Inv(p, s) && CanMove(p, s, m) && !m.Do?
    ensures Inv(p, Move1(p, s, m))
  {
    var s' := Move1(p, s, m);
    OracleMoves(p, s, m);
    RacedGrows(p, s.history, s'.history, s.raced);
    SweepGrows(p, s.history, s'.history, s.raced, s.raced, s.listedAt, s.world.sweep);
    AllGrow(p, s.history, s'.history, s.raced, s.raced, s.world.core.queue);
    CyclesGrow(p, s.history, s'.history, s.raced, s.raced, s.rereads, s.world.cycles, s.now, s'.now);
  }

  // ---------------------------------------------------------------- the sweeper moves

  /** The re-read of an unraced capture agrees with the entry it is judged by. */
  lemma JudgeAgrees(p: Params, s: Sys, i: nat, e: Option<Record>)
    requires Inv(p, s) && Enabled(s.world, Judge(i, e)) && Shown(p, s, Judge(i, e))
    requires e.Some? && e.value.version == s.world.cycles[i].due[0].version
    requires CaptureOf(s.world.cycles[i].due[0]) !in s.raced
    ensures var cy := s.world.cycles[i]; CompareRead(cy.due[0].Key(), e.value, cy.head.read, p.setup.opts, cy.now).None?
  {
    var cy, r := s.world.cycles[i], ReadingOf(s.rereads, i);
    var c, read := cy.due[0], cy.head.read;
    var k := c.Key();
    var h := s.history[k];
    assert CycleGrounded(p, s.history, s.raced, r, cy, s.now);
    assert c in cy.due && CandidateGrounded(p, s.history, s.raced, c) && c.DueAt() <= cy.now;
    assert RecordOk(s.records[k], h, s.now);
    assert |h| == c.version == r.len;
    assert h[..r.len] == h;
    if Showable(h, |h|, r.at - 2 * p.w) {
      ShowableEarlier(h, |h|, c.seenAt - p.w, r.at - 2 * p.w);
    }
    LaggedReadAgrees(h, r.at, 2 * p.w, read.value);
    CompareMeaning(k, e.value, read.value, p.setup.opts, cy.now);
  }

  predicate OfSweep(a: Act) {
    a.StartSweep? || a.ListKey? || a.ReadKey? || a.FenceFails? || a.CompareKeys? || a.EndSweep?
  }

  /** What a sweep does before it queues or refreshes leaves queue, cycle and episodes alone. */
  lemma SweepFrame(p: Setup, w: World, a: Act)
    requires (OfSweep(a) || a.Batch?) && Enabled(w, a)
    ensures var w' := Step(p, w, a);
      && w'.cycles == w.cycles && w'.core.queue == w.core.queue && w'.openedBy == w.openedBy && w'.lastBy == w.lastBy
      && w'.core.stats.confirmations == w.core.stats.confirmations
  {
  }

  lemma SweepMoveInv(p: Params, s: Sys, a: Act)
    requires Inv(p, s) && p.w <= p.never && OfSweep(a) && Enabled(s.world, a) && Shown(p, s, a)
    ensures Inv(p, Move1(p, s, Do(a)))
  {
    SweepFrame(p.setup, s.world, a);
    match a
    case ListKey(k) => ListItemsOk(p, s, k);
    case CompareKeys(k, e) => CompareItemsOk(p, s, k, e);
    case ReadKey(k, read) => ItemChanges(p, s, k, WasRead(s.world.sweep.value.items[k].version, read));
    case FenceFails(k) => ItemChanges(p, s, k, s.world.sweep.value.items[k]);
    case _ =>
  }

  /** Replacing or dropping one item keeps the others grounded. */
  lemma ItemChanges(p: Params, s: Sys, k: Key, i: Item)
    requires ItemIs(s.world, k) && SweepOk(p, s.history, s.raced, s.listedAt, s.world.sweep)
    requires var at := s.world.sweep.value.at;
      ItemGrounded(p, s.history, s.raced, s.listedAt, k, s.world.sweep.value.items[k], at) ==>
        ItemGrounded(p, s.history, s.raced, s.listedAt, k, i, at)
    ensures SweepOk(p, s.history, s.raced, s.listedAt, WithItem(s.world, k, i).sweep)
    ensures SweepOk(p, s.history, s.raced, s.listedAt, DropItem(s.world, k).sweep)
  {
    var items, at := s.world.sweep.value.items, s.world.sweep.value.at;
    forall x | x in items
      ensures ItemGrounded(p, s.history, s.raced, s.listedAt, x, items[x], at)
    {
    }
  }

  lemma ListItemsOk(p: Params, s: Sys, k: Key)
    requires Inv(p, s) && p.w <= p.never && Enabled(s.world, ListKey(k)) && Shown(p, s, ListKey(k))
    ensures var s' := Move1(p, s, Do(ListKey(k))); SweepOk(p, s'.history, s'.raced, s'.listedAt, s'.world.sweep)
  {
    assert RecordOk(s.records[k], s.history[k], s.now);
    SettledIsHeld(p, s.records[k], s.history[k], s.now, s.world.sweep.value.at);
    HeldIsNotShowable(s.history[k], s.records[k].version, s.world.sweep.value.at - p.w);
    var items, at := s.world.sweep.value.items, s.world.sweep.value.at;
    forall x | x in items
      ensures ItemGrounded(p, s.history, s.raced, s.listedAt, x, items[x], at)
    {
    }
  }

  lemma CompareItemsOk(p: Params, s: Sys, k: Key, e: Option<Record>)
    requires Inv(p, s) && Enabled(s.world, CompareKeys(k, e))
    ensures SweepOk(p, s.history, s.raced, s.listedAt, Step(p.setup, s.world, CompareKeys(k, e)).sweep)
  {
    var item, at := s.world.sweep.value.items[k], s.world.sweep.value.at;
    assert ItemGrounded(p, s.history, s.raced, s.listedAt, k, item, at);
    ItemChanges(p, s, k, item);
    if e.Some? && e.value.version == item.version && !item.read.Failed? {
      FindingOk(k, e.value, item.read, p.setup.opts, at);
      var f := CompareRead(k, e.value, item.read, p.setup.opts, at);
      if f.Some? {
        ItemChanges(p, s, k, ToEnqueue(item.version, f.value.(firstSeenAt := at)));
        if k in s.world.core.confirmed {
          ItemChanges(p, s, k, ToRefresh(f.value.(confirmed := true,
            firstSeenAt := s.world.core.confirmed[k].firstSeenAt)));
        }
      }
    }
  }

  /** A capture that races is recorded; nothing else about the past changes. */
  lemma RecordRace(p: Params, s: Sys, raced': set<Capture>)
    requires Inv(p, s) && s.raced <= raced' && TrulyRaced(p, s.history, raced')
    ensures Inv(p, s.(raced := raced'))
  {
    SweepGrows(p, s.history, s.history, s.raced, raced', s.listedAt, s.world.sweep);
    AllGrow(p, s.history, s.history, s.raced, raced', s.world.core.queue);
    CyclesGrow(p, s.history, s.history, s.raced, raced', s.rereads, s.world.cycles, s.now, s.now);
  }

  lemma CaptureRecorded(p: Params, s: Sys, k: Key, e: Option<Record>)
    requires Inv(p, s) && Enabled(s.world, Batch(k, e)) && Shown(p, s, Batch(k, e))
    ensures var s' := Move1(p, s, Do(Batch(k, e)));
      s.raced <= s'.raced && TrulyRaced(p, s.history, s'.raced)
  {
  }

  /** A sweep that moves on, over the same queue, cycles and confirmations. */
  lemma SweepOnInv(p: Params, s: Sys, w': World)
    requires Inv(p, s) && SweepOk(p, s.history, s.raced, s.listedAt, w'.sweep)
    requires w'.cycles == s.world.cycles && w'.core.queue == s.world.core.queue
    requires w'.openedBy == s.world.openedBy && w'.lastBy == s.world.lastBy
    requires w'.core.stats.confirmations == s.world.core.stats.confirmations
    ensures Inv(p, s.(world := w'))
  {
  }

  lemma BatchInv(p: Params, s: Sys, k: Key, e: Option<Record>)
    requires Inv(p, s) && Enabled(s.world, Batch(k, e)) && Shown(p, s, Batch(k, e))
    ensures Inv(p, Move1(p, s, Do(Batch(k, e))))
  {
    var w' := Step(p.setup, s.world, Batch(k, e));
    var s1 := s.(raced := Move1(p, s, Do(Batch(k, e))).raced);
    SweepFrame(p.setup, s.world, Batch(k, e));
    CaptureRecorded(p, s, k, e);
    RecordRace(p, s, s1.raced);
    CapturedItem(p, s, s1, k, e);
    SweepOnInv(p, s1, w');
  }

  lemma CapturedItem(p: Params, s: Sys, s1: Sys, k: Key, e: Option<Record>)
    requires Inv(p, s1) && Enabled(s.world, Batch(k, e)) && Shown(p, s, Batch(k, e))
    requires s1 == s.(raced := Move1(p, s, Do(Batch(k, e))).raced)
    ensures SweepOk(p, s.history, s1.raced, s.listedAt, Step(p.setup, s.world, Batch(k, e)).sweep)
  {
    ItemChanges(p, s1, k, s.world.sweep.value.items[k]);
    if e.Some? && !e.value.flag.Adopted? {
      assert RecordOk(s.records[k], s.history[k], s.now);
      assert Grounded(s.history, s1.raced, k, e.value.version, s.world.sweep.value.at, p.w);
      ItemChanges(p, s1, k, Batched(e.value.version));
    }
  }

  lemma EnqueueInv(p: Params, s: Sys, k: Key)
    requires Inv(p, s) && Enabled(s.world, DoEnqueue(k))
    ensures Inv(p, Move1(p, s, Do(DoEnqueue(k))))
  {
    var s' := Move1(p, s, Do(DoEnqueue(k)));
    var item, at := s.world.sweep.value.items[k], s.world.sweep.value.at;
    assert ItemGrounded(p, s.history, s.raced, s.listedAt, k, item, at);
    ItemChanges(p, s, k, item);
    var c := Candidate(item.finding, item.version, at, s.world.sweep.value.w);
    assert CandidateGrounded(p, s.history, s.raced, c);
    assert forall x :: x in s'.world.core.queue ==> x in s.world.core.queue || x == c;
  }

  lemma TakeInv(p: Params, s: Sys, now: Time)
    requires Inv(p, s) && Shown(p, s, StartCycle(now))
    ensures Inv(p, Move1(p, s, Do(StartCycle(now))))
  {
    DueMembers(s.world.core.queue, now);
    var s' := Move1(p, s, Do(StartCycle(now)));
    forall i: nat | i < |s'.world.cycles|
      ensures CycleGrounded(p, s.history, s.raced, ReadingOf(s.rereads, i), s'.world.cycles[i], s.now)
    {
      if i < |s.world.cycles| {
        assert CycleGrounded(p, s.history, s.raced, ReadingOf(s.rereads, i), s.world.cycles[i], s.now);
      }
    }
  }

  /** One cycle moves, with what it last read; the others stay grounded. */
  lemma OneCycleGrounded(p: Params, s: Sys, i: nat, r: Reading, cy: Cycle)
    requires CyclesGrounded(p, s.history, s.raced, s.rereads, s.world.cycles, s.now) && i < |s.world.cycles|
    requires CycleGrounded(p, s.history, s.raced, r, cy, s.now)
    ensures CyclesGrounded(p, s.history, s.raced, s.rereads[i := r], s.world.cycles[i := cy], s.now)
    ensures r == ReadingOf(s.rereads, i) ==>
      CyclesGrounded(p, s.history, s.raced, s.rereads, s.world.cycles[i := cy], s.now)
  {
    var rereads', cycles' := s.rereads[i := r], s.world.cycles[i := cy];
    forall j: nat | j < |cycles'|
      ensures CycleGrounded(p, s.history, s.raced, ReadingOf(rereads', j), cycles'[j], s.now)
      ensures r == ReadingOf(s.rereads, i) ==>
        CycleGrounded(p, s.history, s.raced, ReadingOf(s.rereads, j), cycles'[j], s.now)
    {
      if j != i {
        assert CycleGrounded(p, s.history, s.raced, ReadingOf(s.rereads, j), s.world.cycles[j], s.now);
      }
    }
  }

  lemma PutBackInv(p: Params, s: Sys, i: nat)
    requires Inv(p, s) && Good(p.setup, s.world) && Enabled(s.world, PutBackRest(i))
    ensures Inv(p, Move1(p, s, Do(PutBackRest(i))))
  {
    var cy := s.world.cycles[i];
    assert CycleGrounded(p, s.history, s.raced, ReadingOf(s.rereads, i), cy, s.now);
    RequeueAllLedger(s.world.core, p.setup.max, cy.due);
    OneCycleGrounded(p, s, i, ReadingOf(s.rereads, i), cy.(due := []));
  }

  /** The cycle moves past its first candidate. */
  lemma NextInv(p: Params, s: Sys, i: nat, core: Core)
    requires Inv(p, s) && HeadIs(s.world, i) && core.queue == s.world.core.queue
    requires core.stats.confirmations == s.world.core.stats.confirmations
    ensures Inv(p, s.(world := NextCandidate(s.world, i, core)))
  {
    NextGrounded(p, s, i);
  }

  lemma NextGrounded(p: Params, s: Sys, i: nat)
    requires CyclesGrounded(p, s.history, s.raced, s.rereads, s.world.cycles, s.now) && HeadIs(s.world, i)
    ensures var cy := s.world.cycles[i];
      CyclesGrounded(p, s.history, s.raced, s.rereads,
        s.world.cycles[i := cy.(due := cy.due[1..], head := Untouched)], s.now)
  {
    var cy := s.world.cycles[i];
    assert CycleGrounded(p, s.history, s.raced, ReadingOf(s.rereads, i), cy, s.now);
    assert forall c :: c in cy.due[1..] ==> c in cy.due;
    OneCycleGrounded(p, s, i, ReadingOf(s.rereads, i), cy.(due := cy.due[1..], head := Untouched));
  }

  lemma HeadInv(p: Params, s: Sys, i: nat, h: Head)
    requires Inv(p, s) && HeadIs(s.world, i)
    requires HeadGrounded(p, s.history, s.raced, ReadingOf(s.rereads, i), s.world.cycles[i].due[0], h,
      s.world.cycles[i].now)
    ensures Inv(p, s.(world := WithHead(s.world, i, h)))
  {
    var cy := s.world.cycles[i];
    assert CycleGrounded(p, s.history, s.raced, ReadingOf(s.rereads, i), cy, s.now);
    OneCycleGrounded(p, s, i, ReadingOf(s.rereads, i), cy.(head := h));
  }

  lemma VersionInv(p: Params, s: Sys, i: nat, v: Option<nat>)
    requires Inv(p, s) && Enabled(s.world, CheckVersion(i, v))
    ensures Inv(p, Move1(p, s, Do(CheckVersion(i, v))))
  {
    var c, cand := s.world.core, s.world.cycles[i].due[0];
    if v.None? {
      NextInv(p, s, i, Forgot(c));
    } else if v.value != cand.version {
      NextInv(p, s, i, MarkRequeued(Advanced(c), cand.Key()));
    } else {
      HeadInv(p, s, i, Versioned);
    }
  }

  /** Remembering a new reading disturbs no cycle whose head does not rest on one. */
  lemma ReadingInv(p: Params, s: Sys, i: nat, r: Reading)
    requires Inv(p, s) && HeadIs(s.world, i) && s.world.cycles[i].head.Versioned?
    ensures Inv(p, s.(rereads := s.rereads[i := r]))
  {
    var cy := s.world.cycles[i];
    assert CycleGrounded(p, s.history, s.raced, ReadingOf(s.rereads, i), cy, s.now);
    OneCycleGrounded(p, s, i, r, cy);
    assert s.world.cycles[i := cy] == s.world.cycles;
  }

  lemma RereadInv(p: Params, s: Sys, i: nat, read: Read)
    requires Inv(p, s) && Enabled(s.world, RereadKey(i, read)) && Shown(p, s, RereadKey(i, read))
    ensures Inv(p, Move1(p, s, Do(RereadKey(i, read))))
  {
    var cy := s.world.cycles[i];
    var c := cy.due[0];
    assert CycleGrounded(p, s.history, s.raced, ReadingOf(s.rereads, i), cy, s.now);
    assert c in cy.due && CandidateGrounded(p, s.history, s.raced, c);
    var h := s.history[c.Key()];
    var r := Reading(s.now, |h|);
    var s1 := s.(rereads := s.rereads[i := r]);
    ReadingInv(p, s, i, r);
    if read.Failed? {
      NextInv(p, s1, i, MarkRequeued(Unread(s.world.core), c.Key()));
    } else {
      assert h[..|h|] == h;
      HeadInv(p, s1, i, Reread(read));
    }
  }

  lemma JudgeInv(p: Params, s: Sys, i: nat, e: Option<Record>)
    requires Inv(p, s) && Enabled(s.world, Judge(i, e)) && Shown(p, s, Judge(i, e))
    ensures Inv(p, Move1(p, s, Do(Judge(i, e))))
  {
    var c, cy := s.world.core, s.world.cycles[i];
    var cand := cy.due[0];
    if e.None? || e.value.version != cand.version {
      NextInv(p, s, i, MarkRequeued(Advanced(c), cand.Key()));
    } else if e.value.flag.Suspect? {
      NextInv(p, s, i, Doubted(c));
    } else {
      var f := CompareRead(cand.Key(), e.value, cy.head.read, p.setup.opts, cy.now);
      if f.None? {
        NextInv(p, s, i, CaughtUp(c));
      } else {
        if CaptureOf(cand) !in s.raced {
          JudgeAgrees(p, s, i, e);
        }
        HeadInv(p, s, i, ToConfirm(f.value));
      }
    }
  }

  lemma ConfirmInv(p: Params, s: Sys, i: nat)
    requires Inv(p, s) && Enabled(s.world, DoConfirm(i))
    ensures Inv(p, Move1(p, s, Do(DoConfirm(i))))
  {
    assert CycleGrounded(p, s.history, s.raced, ReadingOf(s.rereads, i), s.world.cycles[i], s.now);
    NextGrounded(p, s, i);
  }

  lemma CycleInv(p: Params, s: Sys, a: Act)
    requires Inv(p, s) && Good(p.setup, s.world) && Enabled(s.world, a) && Shown(p, s, a)
    requires a.StartCycle? || a.CheckVersion? || a.RereadKey? || a.Judge? || a.DoConfirm? || a.PutBackRest?
    ensures Inv(p, Move1(p, s, Do(a)))
  {
    match a
    case StartCycle(now) => TakeInv(p, s, now);
    case CheckVersion(i, v) => VersionInv(p, s, i, v);
    case RereadKey(i, read) => RereadInv(p, s, i, read);
    case Judge(i, e) => JudgeInv(p, s, i, e);
    case DoConfirm(i) => ConfirmInv(p, s, i);
    case PutBackRest(i) => PutBackInv(p, s, i);
  }

  lemma SweeperInv(p: Params, s: Sys, a: Act)
    requires Inv(p, s) && Good(p.setup, s.world) && p.w <= p.never && Enabled(s.world, a) && Shown(p, s, a)
    ensures Inv(p, Move1(p, s, Do(a)))
  {
    if OfSweep(a) {
      SweepMoveInv(p, s, a);
    } else if a.Batch? {
      BatchInv(p, s, a.k, a.entry);
    } else if a.DoEnqueue? {
      EnqueueInv(p, s, a.k);
    } else if a.DoRefresh? {
      ItemChanges(p, s, a.k, s.world.sweep.value.items[a.k]);
    } else if !a.Withdraw? {
      CycleInv(p, s, a);
    }
  }

  /** Every move keeps the invariant. */
  lemma MoveInv(p: Params, s: Sys, m: Move)
    requires Inv(p, s) && Good(p.setup, s.world) && p.w <= p.never && CanMove(p, s, m)
    ensures Inv(p, Move1(p, s, m)) && Good(p.setup, Move1(p, s, m).world)
  {
    if !m.Do? {
      EnvironmentInv(p, s, m);
    } else {
      var a := m.act;
      StepGood(p.setup, s.world, a);
      SweeperInv(p, s, a);
    }
  }

  lemma {:induction false} RunInv(p: Params, s: Sys, ms: seq<Move>)
    requires Inv(p, s) && Good(p.setup, s.world) && p.w <= p.never && AllMoves(p, s, ms)
    ensures Inv(p, RunMoves(p, s, ms)) && Good(p.setup, RunMoves(p, s, ms).world)
    decreases |ms|
  {
    if ms != [] {
      MoveInv(p, s, ms[0]);
      RunInv(p, Move1(p, s, ms[0]), ms[1..]);
    }
  }

  /** Nothing has been applied, swept or confirmed yet. */
  predicate AtStart(s: Sys) {
    && Initial(s.world) && s.world.openedBy == map[] && s.world.lastBy == map[]
    && s.records == map[] && s.history == map[] && s.raced == {}
  }

  lemma FreshInv(p: Params, s: Sys)
    requires AtStart(s)
    ensures Inv(p, s) && Good(p.setup, s.world)
  {
    InitialIsGood(p.setup, s.world);
    IdleInv(p, s);
  }

  lemma IdleInv(p: Params, s: Sys)
    requires s.world.sweep.None? && s.world.cycles == [] && s.world.core.queue == []
    requires s.world.openedBy == map[] && s.world.lastBy == map[] && s.world.core.stats.confirmations == 0
    requires s.records == map[] && s.history == map[] && s.raced == {}
    ensures Inv(p, s)
  {
  }

  /** The systems some interleaving leads to. */
  ghost predicate Arises(p: Params, s: Sys) {
    exists s0, ms :: AtStart(s0) && LeadsFrom(p, s0, ms, s)
  }

  ghost predicate LeadsFrom(p: Params, s0: Sys, ms: seq<Move>, s: Sys) {
    AllMoves(p, s0, ms) && s == RunMoves(p, s0, ms)
  }

  lemma LeadsFromInv(p: Params, s0: Sys, ms: seq<Move>, s: Sys)
    requires Inv(p, s0) && Good(p.setup, s0.world) && p.w <= p.never && LeadsFrom(p, s0, ms, s)
    ensures Inv(p, s) && Good(p.setup, s.world)
  {
    RunInv(p, s0, ms);
  }

  lemma ArisesInv(p: Params, s: Sys)
    requires p.w <= p.never && Arises(p, s)
    ensures Inv(p, s) && Good(p.setup, s.world)
  {
    var s0, ms :| AtStart(s0) && LeadsFrom(p, s0, ms, s);
    FreshInv(p, s0);
    LeadsFromInv(p, s0, ms, s);
  }

  /** No false confirmation: on a target never more than 2W behind, over every interleaving of events,
      marks, sweeps and any number of confirm cycles, a candidate that reaches confirm was captured by
      a race: another value was still expected less than a window before its sweep began. */
  lemma ConfirmedOnlyIfRaced(p: Params, s: Sys, i: nat)
    requires p.w <= p.never && Arises(p, s) && Enabled(s.world, DoConfirm(i))
    ensures var c := s.world.cycles[i].due[0];
      CaptureOf(c) in s.raced && c.Key() in s.history && Showable(s.history[c.Key()], c.version, c.seenAt - p.w)
  {
    ArisesInv(p, s);
    HeadIsRaced(p, s, i);
    RacedIsShowable(p, s.history, s.raced, CaptureOf(s.world.cycles[i].due[0]));
  }

  lemma HeadIsRaced(p: Params, s: Sys, i: nat)
    requires CyclesGrounded(p, s.history, s.raced, s.rereads, s.world.cycles, s.now) && Enabled(s.world, DoConfirm(i))
    ensures CaptureOf(s.world.cycles[i].due[0]) in s.raced
  {
    assert CycleGrounded(p, s.history, s.raced, ReadingOf(s.rereads, i), s.world.cycles[i], s.now);
  }

  lemma RacedIsShowable(p: Params, hs: Histories, raced: set<Capture>, x: Capture)
    requires TrulyRaced(p, hs, raced) && x in raced
    ensures x.key in hs && Showable(hs[x.key], x.version, x.at - p.w)
  {
  }

  /** And so every open episode was opened, and last confirmed, from a capture that raced. Where no
      capture raced, nothing was ever confirmed. */
  lemma EpisodesOnlyIfRaced(p: Params, s: Sys, k: Key)
    requires p.w <= p.never && Arises(p, s)
    ensures k in s.world.core.confirmed ==>
      && k in s.world.openedBy && CaptureOf(s.world.openedBy[k].candidate) in s.raced
      && k in s.world.lastBy && CaptureOf(s.world.lastBy[k].candidate) in s.raced
    ensures s.raced == {} ==> s.world.core.confirmed == map[] && s.world.core.stats.confirmations == 0
  {
    ArisesInv(p, s);
    assert s.raced == {} ==> s.world.core.confirmed.Keys == {};
  }

  /** A change of value at some version after a, up to b. */
  ghost predicate Changes(h: seq<Stamp>, a: nat, b: nat) {
    b <= |h| && exists i: nat :: a < i <= b && ChangedAt(h, i)
  }

  predicate ChangedAt(h: seq<Stamp>, i: nat) { 1 <= i <= |h| && !ValueAt(h, i).Equal(ValueAt(h, i - 1)) }

  lemma ChangesWider(h: seq<Stamp>, a: nat, b: nat, a': nat, b': nat)
    requires a' <= a && b <= b' <= |h|
    ensures Changes(h, a, b) ==> Changes(h, a', b')
  {
  }

  lemma {:induction false} UnchangedIsEqual(h: seq<Stamp>, a: nat, b: nat)
    requires a <= b <= |h| && !Changes(h, a, b)
    ensures ValueAt(h, a).Equal(ValueAt(h, b)) && ValueAt(h, b).Equal(ValueAt(h, a))
    decreases b
  {
    if a < b {
      assert !ChangedAt(h, b);
      ChangesWider(h, a, b - 1, a, b);
      UnchangedIsEqual(h, a, b - 1);
    }
  }

  /** A race is an event that changed the key's value after the sweep listed it and before the sweep
      captured its version. A repeat of the same value is none. */
  lemma RaceIsAChange(p: Params, s: Sys, k: Key, e: Option<Record>)
    requires p.w <= p.never && Arises(p, s)
    requires Enabled(s.world, Batch(k, e)) && Shown(p, s, Batch(k, e)) && Races(p, s, k, e)
    ensures k in s.listedAt && k in s.history && Changes(s.history[k], s.listedAt[k], e.value.version)
  {
    ArisesInv(p, s);
    var at, h := s.world.sweep.value.at, s.history[k];
    assert ItemGrounded(p, s.history, s.raced, s.listedAt, k, s.world.sweep.value.items[k], at);
    assert RecordOk(s.records[k], h, s.now);
    var l, v := s.listedAt[k], e.value.version;
    if !Changes(h, l, v) {
      var i: nat :| Shows(h, v, i, at - p.w);
      UnchangedIsEqual(h, l, v);
      if i >= l {
        ChangesWider(h, i, v, l, v);
        UnchangedIsEqual(h, i, v);
      } else {
        assert !Shows(h, l, i, at - p.w);
        EqualTrans(ValueAt(h, i), ValueAt(h, l), ValueAt(h, v));
      }
    }
  }
}
