/** The applier, from a delivered event to the oracle (pkg/check/check.go): reorder buffer, tracker,
    projection, oracle. The theorem is that it recovers the order the publisher sent in.

    One publisher's events are followed; the oracle is the naive one, one record per key, that the
    sharded oracle refines. */
module Pipelines {
  import opened Events
  import opened OracleShard
  import opened GapSets
  import opened Trackers
  import opened Reordering
  import P = Projections
  import R = References

  /** `owned` is the keyspace the publisher's loss casts doubt over. */
  datatype Settings = Settings(limits: Limits, tracking: Trackers.Config, projection: P.Projection, owned: Key -> bool)
  {
    predicate Valid() { limits.window > 0 && limits.maxHeld >= 1 && tracking.maxIntervals >= 1 && projection.Valid() }
  }

  type Records = map<Key, Record>

  /** What the applier has built up behind the reorder buffer. */
  datatype Applied = Applied(pub: Option<Pub>, records: Records)

  function Values(records: Records): P.State { map k | k in records :: records[k].value }

  /** Folds the event into its key's record, stamped with when the event was received. */
  function FoldInto(p: P.Projection, records: Records, e: Event, trust: Trust): Records
    requires p.Valid()
  {
    var o := P.Apply(p, P.ValueAt(Values(records), e.key), e);
    if o.Refused? || o.m.action.Nothing? then records
    else records[o.m.key := Written(Lookup(records, o.m.key), o.m, e.observedAt, trust)]
  }

  ghost function VerdictOn(c: Settings, pub: Option<Pub>, e: Event): Verdict {
    if pub.None? then AcceptFirstSeen else Judge(c.tracking, pub.value, e.epoch, e.seqno)
  }

  ghost function Tracked(c: Settings, pub: Option<Pub>, e: Event, now: Time): Pub
    requires c.Valid()
  {
    if pub.None? then NewPub(e.epoch, e.seqno, now) else Observed(c.tracking, pub.value, e.epoch, e.seqno, now)
  }

  /** One in-sequence event through tracker, snapshot handling and projection. `now` is the clock the
      tracker reads. */
  ghost function ApplyOrdered(c: Settings, a: Applied, e: Event, now: Time): Applied
    requires c.Valid()
  {
    var v, st := VerdictOn(c, a.pub, e), Tracked(c, a.pub, e, now);
    if !v.Accepted() then Applied(Some(st), a.records)
    else
      var doubted := if v.AcceptWithGap? || v.AcceptAfterRestart? then MarkRecords(a.records, c.owned) else a.records;
      var settled := if e.op.OpSnapshotEnd? then st.(gaps := NO_GAPS) else st;
      var restored := if e.op.OpSnapshotEnd? then ClearRecords(doubted, c.owned) else doubted;
      Applied(Some(settled), FoldInto(c.projection, restored, e, if Trusted(settled) then Complete else Suspect))
  }

  ghost function ApplyReleased(c: Settings, a: Applied, out: seq<Event>, now: Time): Applied
    requires c.Valid()
    decreases |out|
  {
    if out == [] then a else ApplyReleased(c, ApplyOrdered(c, a, out[0], now), out[1..], now)
  }

  datatype Pipe = Pipe(line: Line, applied: Applied)

  function NewPipe(): Pipe { Pipe(NewLine(), Applied(None, map[])) }

  /** A delivered event, or a flush of what has waited too long. */
  ghost function Handle(c: Settings, s: Pipe, op: LineOp): Pipe
    requires c.Valid()
  {
    var (line, out) :=
      if op.PresentOp? then Offer(c.limits, s.line, op.e, op.e.observedAt) else Expire(c.limits, s.line, op.now);
    Pipe(line, ApplyReleased(c, s.applied, out, op.now))
  }

  ghost function HandleAll(c: Settings, ops: seq<LineOp>): Pipe
    requires c.Valid()
    decreases |ops|
  {
    if ops == [] then NewPipe() else Handle(c, HandleAll(c, ops[..|ops| - 1]), ops[|ops| - 1])
  }

  // ---------------------------------------------------------------- a contiguous stream

  /** One publisher, one epoch, consecutive numbers below the top. */
  ghost predicate Contiguous(stream: seq<Event>) {
    && stream != [] && stream[0].seqno + |stream| <= MAX_UINT64
    && (forall i :: 0 <= i < |stream| ==> stream[i].seqno == stream[0].seqno + i && stream[i].epoch == stream[0].epoch)
  }

  /** The same event, whenever it was received. */
  predicate SameEvent(a: Event, b: Event) { a.(observedAt := 0) == b.(observedAt := 0) }

  /** The event is the one the stream carries under that number; a repeat is received at another time. */
  ghost predicate From(stream: seq<Event>, e: Event) {
    stream != [] && 0 <= e.seqno - stream[0].seqno < |stream| && SameEvent(e, stream[e.seqno - stream[0].seqno])
  }

  /** Out is the stretch of the stream from m up to n. */
  ghost predicate Stretch(stream: seq<Event>, out: seq<Event>, m: nat, n: nat) {
    m <= n <= |stream| && |out| == n - m && forall i :: 0 <= i < |out| ==> SameEvent(out[i], stream[m + i])
  }

  /** A fold does not look at when an event was received. */
  lemma SameFold(p: P.Projection, s: P.State, a: Event, b: Event)
    requires p.Valid() && SameEvent(a, b)
    ensures P.FoldOne(p, s, a) == P.FoldOne(p, s, b)
  {
  }

  /** A step that makes nothing give up waiting and looks to the tracker like no restart: the buffer
      does not fill, nothing held is overdue, and a repeat is not far below and near zero. */
  ghost predicate Calm(c: Settings, s: Pipe, op: LineOp) {
    match op
    case FlushOp(now) => s.line.held == map[] || now - s.line.oldestAt < c.limits.window
    case PresentOp(e, _) =>
      && (e.seqno in s.line.held || |s.line.held| + 1 < c.limits.maxHeld || e.seqno <= s.line.next)
      && (s.applied.pub.Some? && e.seqno < s.line.next ==>
           !ImplicitRestart(c.tracking, s.applied.pub.value.hwm, e.seqno))
  }

  /** The first m events of the stream have been applied in order; everything else that was
      delivered waits in the buffer. */
  ghost predicate Progress(c: Settings, stream: seq<Event>, s: Pipe, m: nat)
    requires c.Valid()
  {
    && 1 <= m <= |stream|
    && s.line.started && s.line.epoch == stream[0].epoch && s.line.next == stream[0].seqno + m
    && StillWaiting(stream, s.line.held, s.line.next)
    && |s.line.held| < c.limits.maxHeld
    && Upto(c, stream, s.applied, m)
  }

  ghost predicate StillWaiting(stream: seq<Event>, held: map<nat, Event>, next: nat) {
    forall x :: x in held ==> x > next && From(stream, held[x]) && held[x].seqno == x
  }

  ghost predicate Upto(c: Settings, stream: seq<Event>, a: Applied, m: nat)
    requires c.Valid() && m <= |stream|
  {
    && 1 <= m && a.pub.Some? && a.pub.value.epoch == stream[0].epoch
    && a.pub.value.hwm == stream[0].seqno + m - 1 && a.pub.value.gaps == NO_GAPS
    && Values(a.records) == P.FoldAll(c.projection, stream[..m])
    && AllTrusted(a.records)
  }

  ghost predicate AllTrusted(records: Records) { forall k :: k in records ==> records[k].flag.Complete? }

  lemma FoldIntoMeaning(p: P.Projection, records: Records, e: Event)
    requires p.Valid() && AllTrusted(records)
    ensures Values(FoldInto(p, records, e, Complete)) == P.FoldOne(p, Values(records), e)
    ensures AllTrusted(FoldInto(p, records, e, Complete))
  {
  }

  lemma ClearingTrusted(records: Records, owned: Key -> bool)
    requires AllTrusted(records)
    ensures ClearRecords(records, owned) == records
  {
  }

  /** An event accepted without doubt folds into the values and leaves them trusted. */
  lemma AcceptedApplied(c: Settings, a: Applied, e: Event, now: Time)
    requires c.Valid() && AllTrusted(a.records) && Tracked(c, a.pub, e, now).gaps == NO_GAPS
    requires VerdictOn(c, a.pub, e).Accept? || VerdictOn(c, a.pub, e).AcceptFirstSeen?
    ensures var a' := ApplyOrdered(c, a, e, now);
      && a'.pub == Some(Tracked(c, a.pub, e, now))
      && Values(a'.records) == P.FoldOne(c.projection, Values(a.records), e) && AllTrusted(a'.records)
  {
    ClearingTrusted(a.records, c.owned);
    FoldIntoMeaning(c.projection, a.records, e);
  }

  lemma FirstApplied(c: Settings, stream: seq<Event>, e: Event, now: Time)
    requires c.Valid() && Contiguous(stream) && SameEvent(e, stream[0])
    ensures Upto(c, stream, ApplyOrdered(c, Applied(None, map[]), e, now), 1)
  {
    AcceptedApplied(c, Applied(None, map[]), e, now);
    SameFold(c.projection, map[], e, stream[0]);
    assert stream[..1][..0] == [];
  }

  lemma NextApplied(c: Settings, stream: seq<Event>, a: Applied, m: nat, e: Event, now: Time)
    requires c.Valid() && Contiguous(stream) && m < |stream| && Upto(c, stream, a, m) && SameEvent(e, stream[m])
    ensures Upto(c, stream, ApplyOrdered(c, a, e, now), m + 1)
  {
    AcceptedApplied(c, a, e, now);
    SameFold(c.projection, Values(a.records), e, stream[m]);
    assert stream[..m + 1][..m] == stream[..m];
  }

  /** A repeat of a number already applied changes nothing but the time it was last seen. */
  lemma RepeatDropped(c: Settings, stream: seq<Event>, a: Applied, m: nat, e: Event, now: Time)
    requires c.Valid() && Contiguous(stream) && m <= |stream| && Upto(c, stream, a, m) && From(stream, e)
    requires e.seqno < stream[0].seqno + m && !ImplicitRestart(c.tracking, a.pub.value.hwm, e.seqno)
    ensures Upto(c, stream, ApplyOrdered(c, a, e, now), m)
  {
    assert !Covers(NO_GAPS.intervals, e.seqno);
  }

  lemma {:induction false} ReleasedApplied(
    c: Settings, stream: seq<Event>, a: Applied, out: seq<Event>, m: nat, n: nat, now: Time)
    requires c.Valid() && Contiguous(stream) && Stretch(stream, out, m, n) && Upto(c, stream, a, m)
    ensures Upto(c, stream, ApplyReleased(c, a, out, now), n)
    decreases n - m
  {
    if m < n {
      NextApplied(c, stream, a, m, out[0], now);
      ReleasedApplied(c, stream, ApplyOrdered(c, a, out[0], now), out[1..], m + 1, n, now);
    }
  }

  lemma StretchMore(stream: seq<Event>, e: Event, out: seq<Event>, m: nat, n: nat)
    requires m < |stream| && SameEvent(e, stream[m]) && Stretch(stream, out, m + 1, n)
    ensures Stretch(stream, [e] + out, m, n)
  {
  }

  /** The line expects a number of the stream, and holds events of the stream from there on. */
  ghost predicate Abreast(stream: seq<Event>, line: Line)
    requires stream != []
  {
    && stream[0].seqno <= line.next <= stream[0].seqno + |stream|
    && (forall x :: x in line.held ==> x >= line.next && From(stream, line.held[x]) && line.held[x].seqno == x)
  }

  function Popped(line: Line): Line { line.(next := Succ(line.next), held := line.held - {line.next}) }

  lemma PoppedAbreast(stream: seq<Event>, line: Line)
    requires Contiguous(stream) && Abreast(stream, line) && line.next in line.held
    ensures Abreast(stream, Popped(line)) && Popped(line).next == line.next + 1
    ensures SameEvent(line.held[line.next], stream[line.next - stream[0].seqno])
    ensures |Popped(line).held| < |line.held|
  {
    Shrinks(line.held, line.next);
  }

  /** What a line lets through is the next stretch of the stream. */
  lemma {:induction false} ConsecutiveStretch(stream: seq<Event>, line: Line)
    requires Contiguous(stream) && Abreast(stream, line)
    ensures var (rest, out) := Consecutive(line);
      && line.next <= rest.next <= stream[0].seqno + |stream|
      && Stretch(stream, out, line.next - stream[0].seqno, rest.next - stream[0].seqno)
      && StillWaiting(stream, rest.held, rest.next)
      && (forall x :: x in line.held ==> x < rest.next || x in rest.held)
    decreases |line.held|
  {
    if line.next in line.held {
      PoppedAbreast(stream, line);
      ConsecutiveStretch(stream, Popped(line));
      var (rest, out) := Consecutive(Popped(line));
      StretchMore(stream, line.held[line.next], out, line.next - stream[0].seqno, rest.next - stream[0].seqno);
    }
  }

  /** Nothing delivered is forgotten. */
  ghost predicate Seen(s: Pipe, x: nat) { x < s.line.next || x in s.line.held }

  /** How far the pipe has got, and that it forgot nothing it had seen. */
  ghost predicate Moved(c: Settings, stream: seq<Event>, s: Pipe, s': Pipe, m: nat)
    requires c.Valid()
  {
    Progress(c, stream, s', m) && forall x {:trigger Seen(s', x)} :: Seen(s, x) ==> Seen(s', x)
  }

  lemma HandleLate(c: Settings, stream: seq<Event>, s: Pipe, m: nat, e: Event, now: Time)
    requires c.Valid() && Contiguous(stream) && Progress(c, stream, s, m) && From(stream, e)
    requires Calm(c, s, PresentOp(e, now)) && e.seqno < s.line.next
    ensures Moved(c, stream, s, Handle(c, s, PresentOp(e, now)), m) && Seen(Handle(c, s, PresentOp(e, now)), e.seqno)
  {
    RepeatDropped(c, stream, s.applied, m, e, now);
    var a := ApplyOrdered(c, s.applied, e, now);
    assert ApplyReleased(c, s.applied, [e], now) == ApplyReleased(c, a, [], now);
  }

  lemma HandleNext(c: Settings, stream: seq<Event>, s: Pipe, m: nat, e: Event, now: Time) returns (n: nat)
    requires c.Valid() && Contiguous(stream) && Progress(c, stream, s, m) && From(stream, e) && e.seqno == s.line.next
    ensures Moved(c, stream, s, Handle(c, s, PresentOp(e, now)), n) && Seen(Handle(c, s, PresentOp(e, now)), e.seqno)
  {
    var stepped := s.line.(next := Succ(s.line.next));
    ConsecutiveStretch(stream, stepped);
    var (rest, out) := Consecutive(stepped);
    n := rest.next - stream[0].seqno;
    StretchMore(stream, e, out, m, n);
    ReleasedApplied(c, stream, s.applied, [e] + out, m, n, now);
    ConsecutiveKeeps(stepped);
  }

  lemma {:induction false} ConsecutiveKeeps(line: Line)
    ensures var (rest, out) := Consecutive(line);
      rest == line.(next := rest.next, held := rest.held) && |rest.held| <= |line.held|
    decreases |line.held|
  {
    if line.next in line.held {
      Shrinks(line.held, line.next);
      ConsecutiveKeeps(line.(next := Succ(line.next), held := line.held - {line.next}));
    }
  }

  lemma HeldMore(held: map<nat, Event>, e: Event)
    requires e.seqno !in held
    ensures |held[e.seqno := e]| == |held| + 1
  {
    var more := held[e.seqno := e];
    assert more.Keys == held.Keys + {e.seqno} && |more.Keys| == |more| && |held.Keys| == |held|;
  }

  lemma HandleAhead(c: Settings, stream: seq<Event>, s: Pipe, m: nat, e: Event, now: Time)
    requires c.Valid() && Contiguous(stream) && Progress(c, stream, s, m) && From(stream, e)
    requires Calm(c, s, PresentOp(e, now)) && e.seqno > s.line.next
    ensures Moved(c, stream, s, Handle(c, s, PresentOp(e, now)), m) && Seen(Handle(c, s, PresentOp(e, now)), e.seqno)
  {
    if e.seqno !in s.line.held {
      HeldMore(s.line.held, e);
    }
  }

  lemma HandleStep(c: Settings, stream: seq<Event>, s: Pipe, m: nat, op: LineOp) returns (n: nat)
    requires c.Valid() && Contiguous(stream) && Progress(c, stream, s, m) && Calm(c, s, op)
    requires op.PresentOp? ==> From(stream, op.e)
    ensures Moved(c, stream, s, Handle(c, s, op), n) && (op.PresentOp? ==> Seen(Handle(c, s, op), op.e.seqno))
  {
    n := m;
    if op.PresentOp? {
      if op.e.seqno < s.line.next {
        HandleLate(c, stream, s, m, op.e, op.now);
      } else if op.e.seqno == s.line.next {
        n := HandleNext(c, stream, s, m, op.e, op.now);
      } else {
        HandleAhead(c, stream, s, m, op.e, op.now);
      }
    }
  }

  lemma HandleFirst(c: Settings, stream: seq<Event>, e: Event, now: Time)
    requires c.Valid() && Contiguous(stream) && SameEvent(e, stream[0])
    ensures Progress(c, stream, Handle(c, NewPipe(), PresentOp(e, now)), 1)
  {
    FirstApplied(c, stream, e, now);
    var a := ApplyOrdered(c, Applied(None, map[]), e, now);
    assert ApplyReleased(c, Applied(None, map[]), [e], now) == ApplyReleased(c, a, [], now);
  }

  // ---------------------------------------------------------------- order recovery

  /** Deliveries of the stream, repeats and all, in any order that begins with its first number, with
      flushes in between; no wait is given up and no repeat looks like a restart. */
  ghost predicate Delivers(c: Settings, stream: seq<Event>, ops: seq<LineOp>)
    requires c.Valid()
  {
    && ops != [] && ops[0].PresentOp? && stream != [] && SameEvent(ops[0].e, stream[0])
    && (forall i :: 0 <= i < |ops| && ops[i].PresentOp? ==> From(stream, ops[i].e))
    && (forall i :: 1 <= i < |ops| ==> CalmAt(c, ops, i))
  }

  ghost predicate CalmAt(c: Settings, ops: seq<LineOp>, i: nat)
    requires c.Valid() && i < |ops|
  {
    Calm(c, HandleAll(c, ops[..i]), ops[i])
  }

  lemma CalmEitherWay(c: Settings, ops: seq<LineOp>, before: seq<LineOp>, i: nat)
    requires c.Valid() && |ops| > 1 && before == ops[..|ops| - 1] && i < |before|
    ensures CalmAt(c, before, i) <==> CalmAt(c, ops, i)
  {
    assert before[..i] == ops[..i];
  }

  /** Every event of the stream arrives at least once. */
  ghost predicate Whole(stream: seq<Event>, ops: seq<LineOp>) {
    forall x {:trigger Arrives(ops, x)} :: stream != [] && stream[0].seqno <= x < stream[0].seqno + |stream| ==>
      Arrives(ops, x)
  }

  ghost predicate Arrives(ops: seq<LineOp>, x: int) {
    exists i :: 0 <= i < |ops| && ops[i].PresentOp? && ops[i].e.seqno == x
  }

  lemma DeliversPrefix(c: Settings, stream: seq<Event>, ops: seq<LineOp>)
    requires c.Valid() && Delivers(c, stream, ops) && |ops| > 1
    ensures Delivers(c, stream, ops[..|ops| - 1])
  {
    var before := ops[..|ops| - 1];
    forall i | 1 <= i < |before|
      ensures CalmAt(c, before, i)
    {
      CalmEitherWay(c, ops, before, i);
    }
  }

  ghost predicate AllSeen(ops: seq<LineOp>, s: Pipe) {
    forall x: nat {:trigger Seen(s, x)} :: Arrives(ops, x) ==> Seen(s, x)
  }

  ghost predicate Standing(c: Settings, stream: seq<Event>, ops: seq<LineOp>, s: Pipe, m: nat)
    requires c.Valid()
  {
    Progress(c, stream, s, m) && AllSeen(ops, s)
  }

  lemma RunStep(c: Settings, stream: seq<Event>, before: seq<LineOp>, op: LineOp, s: Pipe, m: nat) returns (n: nat)
    requires c.Valid() && Contiguous(stream) && Standing(c, stream, before, s, m)
    requires Calm(c, s, op) && (op.PresentOp? ==> From(stream, op.e))
    ensures Standing(c, stream, before + [op], Handle(c, s, op), n)
  {
    n := HandleStep(c, stream, s, m, op);
    forall x: nat | Arrives(before + [op], x)
      ensures Seen(Handle(c, s, op), x)
    {
      ArrivesMore(before, op, x);
      assert Arrives(before, x) ==> Seen(s, x);
    }
  }

  lemma ArrivesMore(before: seq<LineOp>, op: LineOp, x: int)
    requires Arrives(before + [op], x)
    ensures Arrives(before, x) || (op.PresentOp? && op.e.seqno == x)
  {
    var ops := before + [op];
    var i :| 0 <= i < |ops| && ops[i].PresentOp? && ops[i].e.seqno == x;
    assert i < |before| ==> before[i] == ops[i];
  }

  lemma FirstSeen(c: Settings, stream: seq<Event>, op: LineOp)
    requires c.Valid() && Contiguous(stream) && op.PresentOp? && SameEvent(op.e, stream[0])
    ensures Standing(c, stream, [op], Handle(c, NewPipe(), op), 1)
  {
    HandleFirst(c, stream, op.e, op.now);
  }

  lemma LastOfRun(c: Settings, stream: seq<Event>, ops: seq<LineOp>)
    requires c.Valid() && Delivers(c, stream, ops) && |ops| > 1
    ensures Calm(c, HandleAll(c, ops[..|ops| - 1]), ops[|ops| - 1])
    ensures ops[|ops| - 1].PresentOp? ==> From(stream, ops[|ops| - 1].e)
    ensures HandleAll(c, ops) == Handle(c, HandleAll(c, ops[..|ops| - 1]), ops[|ops| - 1])
  {
    assert CalmAt(c, ops, |ops| - 1);
  }

  lemma FirstStands(c: Settings, stream: seq<Event>, ops: seq<LineOp>)
    requires c.Valid() && Contiguous(stream) && Delivers(c, stream, ops) && |ops| == 1
    ensures Standing(c, stream, ops, HandleAll(c, ops), 1)
  {
    assert ops == [ops[0]] && ops[..0] == [];
    FirstSeen(c, stream, ops[0]);
  }

  lemma {:induction false} RunProgress(c: Settings, stream: seq<Event>, ops: seq<LineOp>) returns (m: nat)
    requires c.Valid() && Contiguous(stream) && Delivers(c, stream, ops)
    ensures Standing(c, stream, ops, HandleAll(c, ops), m)
    decreases |ops|
  {
    if |ops| == 1 {
      FirstStands(c, stream, ops);
      return 1;
    }
    var before, op := ops[..|ops| - 1], ops[|ops| - 1];
    LastOfRun(c, stream, ops);
    DeliversPrefix(c, stream, ops);
    m := RunProgress(c, stream, before);
    m := RunStep(c, stream, before, op, HandleAll(c, before), m);
    assert ops == before + [op];
  }

  /** Once everything has arrived, everything has been applied. */
  lemma AllApplied(c: Settings, stream: seq<Event>, ops: seq<LineOp>, s: Pipe, m: nat)
    requires c.Valid() && Contiguous(stream) && Whole(stream, ops) && Standing(c, stream, ops, s, m)
    ensures s.line.held == map[] && AllTrusted(s.applied.records)
    ensures Values(s.applied.records) == P.FoldAll(c.projection, stream)
  {
    assert !Seen(s, s.line.next) && !Arrives(ops, s.line.next);
    NothingBeyond(stream, s.line.held, s.line.next);
    assert stream[..m] == stream;
  }

  /** Order recovery, end to end: whatever order and however often the events of a contiguous stream
      arrive, the oracle ends up with exactly the reference fold of the stream itself, all of it
      trusted, and nothing is left waiting. */
  lemma OrderIsRecovered(c: Settings, stream: seq<Event>, ops: seq<LineOp>, k: Key)
    requires c.Valid() && Contiguous(stream) && Delivers(c, stream, ops) && Whole(stream, ops)
    requires P.NeverTruncated(c.projection, stream)
    ensures HandleAll(c, ops).line.held == map[] && AllTrusted(HandleAll(c, ops).applied.records)
    ensures P.ValueAt(Values(HandleAll(c, ops).applied.records), k) == P.ValueAt(R.Fold(c.projection, stream), k)
  {
    var m := RunProgress(c, stream, ops);
    AllApplied(c, stream, ops, HandleAll(c, ops), m);
    R.FoldRefinesReference(c.projection, stream, k);
  }

  lemma NothingBeyond(stream: seq<Event>, held: map<nat, Event>, next: nat)
    requires Contiguous(stream) && StillWaiting(stream, held, next) && next == stream[0].seqno + |stream|
    ensures held == map[]
  {
  }

  // ---------------------------------------------------------------- streams that cannot fail

  /** Short enough that the buffer cannot fill, and no repeat can look like a restart. */
  predicate Small(c: Settings, stream: seq<Event>) {
    && stream != [] && |stream| <= c.limits.maxHeld + 1
    && (|stream| <= c.tracking.restartDelta + 1 || stream[0].seqno >= c.tracking.restartCeiling)
  }

  /** The stream's events, in any order that starts with the first, as often as they like. */
  ghost predicate AnyOrder(stream: seq<Event>, ops: seq<LineOp>) {
    && ops != [] && stream != [] && ops[0].PresentOp? && SameEvent(ops[0].e, stream[0])
    && (forall i :: 0 <= i < |ops| ==> ops[i].PresentOp? && From(stream, ops[i].e))
  }

  lemma FewWait(held: map<nat, Event>, lo: nat, hi: nat)
    requires lo < hi && forall x :: x in held ==> lo < x <= hi
    ensures |held| <= hi - lo
  {
    var keys: set<int> := set x | x in held;
    assert keys == held.Keys && |held.Keys| == |held|;
    IntervalCardinality(keys, lo + 1, hi);
  }

  lemma CalmAnyway(c: Settings, stream: seq<Event>, s: Pipe, m: nat, e: Event, now: Time)
    requires c.Valid() && Contiguous(stream) && Small(c, stream) && Progress(c, stream, s, m) && From(stream, e)
    ensures Calm(c, s, PresentOp(e, now))
  {
    if e.seqno !in s.line.held && e.seqno > s.line.next {
      var more := s.line.held[e.seqno := e];
      HeldMore(s.line.held, e);
      FewWait(more, s.line.next, stream[0].seqno + |stream| - 1);
    }
  }

  lemma DeliversMore(c: Settings, stream: seq<Event>, ops: seq<LineOp>, before: seq<LineOp>)
    requires c.Valid() && AnyOrder(stream, ops) && |ops| > 1 && before == ops[..|ops| - 1]
    requires Delivers(c, stream, before) && Calm(c, HandleAll(c, before), ops[|ops| - 1])
    ensures Delivers(c, stream, ops)
  {
    CalmMore(c, ops, before);
  }

  lemma CalmMore(c: Settings, ops: seq<LineOp>, before: seq<LineOp>)
    requires c.Valid() && |ops| > 1 && before == ops[..|ops| - 1]
    requires forall i :: 1 <= i < |before| ==> CalmAt(c, before, i)
    requires Calm(c, HandleAll(c, before), ops[|ops| - 1])
    ensures forall i :: 1 <= i < |ops| ==> CalmAt(c, ops, i)
  {
    forall i | 1 <= i < |ops|
      ensures CalmAt(c, ops, i)
    {
      if i < |before| {
        CalmEitherWay(c, ops, before, i);
      }
    }
  }

  lemma {:induction false} AnyOrderDelivers(c: Settings, stream: seq<Event>, ops: seq<LineOp>)
    requires c.Valid() && Contiguous(stream) && Small(c, stream) && AnyOrder(stream, ops)
    ensures Delivers(c, stream, ops)
    decreases |ops|
  {
    if |ops| > 1 {
      var before := ops[..|ops| - 1];
      AnyOrderDelivers(c, stream, before);
      var m := RunProgress(c, stream, before);
      CalmAnyway(c, stream, HandleAll(c, before), m, ops[|ops| - 1].e, ops[|ops| - 1].now);
      DeliversMore(c, stream, ops, before);
    }
  }

  /** A stream this short is recovered from every order of delivery, with nothing to watch for. */
  lemma EveryOrderIsRecovered(c: Settings, stream: seq<Event>, ops: seq<LineOp>, k: Key)
    requires c.Valid() && Contiguous(stream) && Small(c, stream) && AnyOrder(stream, ops) && Whole(stream, ops)
    requires P.NeverTruncated(c.projection, stream)
    ensures HandleAll(c, ops).line.held == map[] && AllTrusted(HandleAll(c, ops).applied.records)
    ensures P.ValueAt(Values(HandleAll(c, ops).applied.records), k) == P.ValueAt(R.Fold(c.projection, stream), k)
  {
    AnyOrderDelivers(c, stream, ops);
    OrderIsRecovered(c, stream, ops, k);
  }

  // ---------------------------------------------------------------- the implementation

  ghost predicate Ready(c: Settings, a: Applied) {
    c.Valid() && (a.pub.Some? ==> Intact(c.tracking, a.pub.value))
  }

  ghost predicate In64(out: seq<Event>) { forall i :: 0 <= i < |out| ==> out[i].seqno <= MAX_UINT64 }

  ghost predicate Holds64(held: Waiting) { forall n :: n in held ==> held[n].seqno <= MAX_UINT64 }

  /** One in-sequence event through the rest of the pipeline. */
  method ApplyEvent(c: Settings, a: Applied, e: Event, now: Time) returns (a': Applied)
    requires Ready(c, a) && e.seqno <= MAX_UINT64
    ensures a' == ApplyOrdered(c, a, e, now) && Ready(c, a')
  {
    var v, st := AcceptFirstSeen, NewPub(e.epoch, e.seqno, now);
    if a.pub.Some? {
      var loss;
      v, st, loss := ObservePub(c.tracking, a.pub.value, e.epoch, e.seqno, now);
      ObservedIntact(c.tracking, a.pub.value, e.epoch, e.seqno, now);
    }
    var records := a.records;
    if v.Accepted() {
      if v.AcceptWithGap? || v.AcceptAfterRestart? {
        records := MarkRecords(records, c.owned);
      }
      if e.op.OpSnapshotEnd? {
        st := st.(gaps := NO_GAPS);
        records := ClearRecords(records, c.owned);
      }
      records := FoldInto(c.projection, records, e, if Trusted(st) then Complete else Suspect);
    }
    a' := Applied(Some(st), records);
  }

  method ApplyEach(c: Settings, a: Applied, out: seq<Event>, now: Time) returns (a': Applied)
    requires Ready(c, a) && In64(out)
    ensures a' == ApplyReleased(c, a, out, now) && Ready(c, a')
  {
    a' := a;
    assert out[0..] == out;
    for i := 0 to |out|
      invariant Ready(c, a') && ApplyReleased(c, a, out, now) == ApplyReleased(c, a', out[i..], now)
    {
      assert out[i..][0] == out[i] && out[i..][1..] == out[i + 1..];
      a' := ApplyEvent(c, a', out[i], now);
    }
  }

  lemma Drained64(line: Line)
    requires Holds64(line.held)
    ensures Holds64(Drain(line).0.held) && In64(Drain(line).1)
  {
    AscendingHeld(line.held);
    var out := Ascending(line.held);
    assert forall i :: 0 <= i < |out| ==> out[i] in out;
  }

  lemma {:induction false} Consecutive64(line: Line)
    requires Holds64(line.held)
    ensures Holds64(Consecutive(line).0.held) && In64(Consecutive(line).1)
    decreases |line.held|
  {
    if line.next in line.held {
      Shrinks(line.held, line.next);
      Consecutive64(Popped(line));
    }
  }

  /** What a line releases and holds are numbers of 64 bits. */
  lemma Offered64(c: Limits, line: Line, e: Event, now: Time)
    requires Holds64(line.held) && e.seqno <= MAX_UINT64
    ensures Holds64(Offer(c, line, e, now).0.held) && In64(Offer(c, line, e, now).1)
  {
    Drained64(line);
    Drained64(line.(held := line.held[e.seqno := e]));
    Consecutive64(line.(next := Succ(line.next)));
  }

  class Applier {
    const c: Settings
    var line: Line
    var applied: Applied

    ghost predicate Valid()
      reads this
    {
      Ready(c, applied) && Holds64(line.held)
    }

    ghost function State(): Pipe
      reads this
    {
      Pipe(line, applied)
    }

    constructor (c: Settings)
      requires c.Valid()
      ensures Valid() && this.c == c && State() == NewPipe()
    {
      this.c := c;
      line, applied := NewLine(), Applied(None, map[]);
    }

    method Ingest(e: Event, now: Time)
      requires Valid() && e.seqno <= MAX_UINT64
      modifies this
      ensures Valid() && State() == Handle(c, old(State()), PresentOp(e, now))
    {
      Offered64(c.limits, line, e, e.observedAt);
      var rest, out := OfferLine(c.limits, line, e, e.observedAt);
      var a := ApplyEach(c, applied, out, now);
      line, applied := rest, a;
    }

    method FlushReorder(now: Time)
      requires Valid()
      modifies this
      ensures Valid() && State() == Handle(c, old(State()), FlushOp(now))
    {
      Drained64(line);
      var rest, out := ExpireLine(c.limits, line, now);
      var a := ApplyEach(c, applied, out, now);
      line, applied := rest, a;
    }
  }

  /** A short stream fed to the applier in any order leaves the reference fold of the stream. */
  method IngestAll(c: Settings, ghost stream: seq<Event>, ops: seq<LineOp>) returns (values: P.State)
    requires c.Valid() && Contiguous(stream) && Small(c, stream) && AnyOrder(stream, ops) && Whole(stream, ops)
    requires P.NeverTruncated(c.projection, stream)
    ensures forall k :: P.ValueAt(values, k) == P.ValueAt(R.Fold(c.projection, stream), k)
  {
    var applier := new Applier(c);
    for i := 0 to |ops|
      invariant applier.Valid() && applier.c == c && applier.State() == HandleAll(c, ops[..i])
    {
      assert ops[..i + 1][..i] == ops[..i];
      applier.Ingest(ops[i].e, ops[i].now);
    }
    assert ops[..|ops|] == ops;
    values := Values(applier.applied.records);
    forall k
      ensures P.ValueAt(values, k) == P.ValueAt(R.Fold(c.projection, stream), k)
    {
      EveryOrderIsRecovered(c, stream, ops, k);
    }
  }
}
