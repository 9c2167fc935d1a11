/** What loss does to trust, from the applier to the oracle (pkg/check/check.go).

    driftwatch cannot know which keys the missing events touched, so a gap or a restart casts doubt over
    every key the publisher may own, and only a completed snapshot takes it back. Everything here is
    stated in sequence numbers. */
module PipelineDoubt {
  import opened Events
  import opened OracleShard
  import opened GapSets
  import opened Trackers
  import opened Reordering
  import opened Pipelines
  import P = Projections

  // ---------------------------------------------------------------- one event

  /** The publisher's state, below the top of the sequence space, and an event that shows that others were
      missed or that it has started again, and does not complete a snapshot. */
  predicate Loses(c: Settings, st: Pub, e: Event) {
    && st.hwm < MAX_UINT64 && e.op != OpSnapshotEnd
    && (|| e.epoch > st.epoch
        || (e.epoch == st.epoch && e.seqno > st.hwm + 1)
        || (e.epoch == st.epoch && e.seqno + c.tracking.restartDelta < st.hwm && e.seqno < c.tracking.restartCeiling))
  }

  /** A fold writes the key of the event and no other. */
  lemma FoldsItsKey(p: P.Projection, records: Records, e: Event, trust: Trust, k: Key)
    requires p.Valid() && (k != e.key || !e.op.TouchesKey())
    ensures k in FoldInto(p, records, e, trust) <==> k in records
    ensures k in records ==> FoldInto(p, records, e, trust)[k] == records[k]
  {
  }

  lemma FoldTrust(p: P.Projection, records: Records, e: Event, trust: Trust)
    requires p.Valid() && e.key in FoldInto(p, records, e, trust)
    ensures
      || (e.key in records && FoldInto(p, records, e, trust)[e.key] == records[e.key])
      || FoldInto(p, records, e, trust)[e.key].flag == trust
  {
  }

  /** A gap or a restart leaves no owned key trusted but the one the event writes. */
  lemma LossCastsDoubt(c: Settings, a: Applied, e: Event, now: Time, k: Key)
    requires c.Valid() && a.pub.Some? && Loses(c, a.pub.value, e) && k != e.key
    requires k in a.records && c.owned(k)
    ensures var r := ApplyOrdered(c, a, e, now).records;
      && k in r && r[k].flag != Complete
      && r[k] == a.records[k].(flag := if a.records[k].flag == Adopted then Adopted else Suspect)
  {
    VerdictIff(c.tracking, a.pub.value, e.epoch, e.seqno);
    var doubted := MarkRecords(a.records, c.owned);
    FoldsItsKey(c.projection, doubted, e, Complete, k);
    FoldsItsKey(c.projection, doubted, e, Suspect, k);
  }

  /** While a number is missing, what the event writes is not trusted either. */
  lemma GapDoubtsTheWrite(c: Settings, a: Applied, e: Event, now: Time)
    requires c.Valid() && a.pub.Some? && Intact(c.tracking, a.pub.value) && Loses(c, a.pub.value, e)
    requires e.epoch == a.pub.value.epoch && a.pub.value.hwm + 1 < e.seqno <= MAX_UINT64 && c.owned(e.key)
    ensures var r := ApplyOrdered(c, a, e, now).records; e.key in r ==> r[e.key].flag != Complete
  {
    var st := a.pub.value;
    VerdictIff(c.tracking, st, e.epoch, e.seqno);
    AddMeaning(st.gaps, c.tracking.maxIntervals, Succ(st.hwm), e.seqno - 1);
    var s := Observed(c.tracking, st, e.epoch, e.seqno, now);
    assert Covers(s.gaps.intervals, st.hwm + 1);
    CountAtLeast(s.gaps.intervals);
    if e.key in FoldInto(c.projection, MarkRecords(a.records, c.owned), e, Suspect) {
      FoldTrust(c.projection, MarkRecords(a.records, c.owned), e, Suspect);
    }
  }

  /** The event completes a snapshot and is the publisher's next. */
  predicate Completes(st: Pub, e: Event) {
    st.hwm < MAX_UINT64 && e.op == OpSnapshotEnd && e.epoch == st.epoch && e.seqno == st.hwm + 1
  }

  /** A completed snapshot takes the doubt back from every owned key, and forgives what was missing. */
  lemma SnapshotRestores(c: Settings, a: Applied, e: Event, now: Time, k: Key)
    requires c.Valid() && a.pub.Some? && Completes(a.pub.value, e) && k in a.records
    ensures var a' := ApplyOrdered(c, a, e, now);
      && k in a'.records
      && a'.records[k] == a.records[k].(
           flag := if c.owned(k) && a.records[k].flag == Suspect then Complete else a.records[k].flag)
      && a'.pub.Some? && a'.pub.value.gaps.intervals == [] && !a'.pub.value.gaps.truncated
  {
    VerdictIff(c.tracking, a.pub.value, e.epoch, e.seqno);
    var restored := ClearRecords(a.records, c.owned);
    FoldsItsKey(c.projection, restored, e, Complete, k);
  }

  /** An event that is the publisher's next, with nothing missing, is written trusted; with something
      missing, suspect. */
  lemma NextIsTrustedIff(c: Settings, a: Applied, e: Event, now: Time)
    requires c.Valid() && a.pub.Some? && e.op.TouchesKey()
    requires e.epoch == a.pub.value.epoch && e.seqno == a.pub.value.hwm + 1 <= MAX_UINT64
    requires var r := ApplyOrdered(c, a, e, now).records;
      e.key in r && (e.key in a.records ==> r[e.key] != a.records[e.key])
    ensures ApplyOrdered(c, a, e, now).records[e.key].flag ==
      if Count(a.pub.value.gaps.intervals) == 0 && !a.pub.value.gaps.truncated then Complete else Suspect
  {
    VerdictIff(c.tracking, a.pub.value, e.epoch, e.seqno);
    FoldTrust(c.projection, a.records, e, if Trusted(a.pub.value) then Complete else Suspect);
  }

  /** What an event does to the values, in numbers: a repeat or a leftover of an older epoch changes
      nothing at all; any other is folded once, whatever it does to trust. */
  lemma FoldedUnlessRepeated(c: Settings, a: Applied, e: Event, now: Time)
    requires c.Valid() && a.pub.Some? && a.pub.value.hwm < MAX_UINT64
    ensures var st, a' := a.pub.value, ApplyOrdered(c, a, e, now);
      var again := e.seqno + c.tracking.restartDelta < st.hwm && e.seqno < c.tracking.restartCeiling;
      var repeated := e.epoch == st.epoch && e.seqno <= st.hwm && !again && !Covers(st.gaps.intervals, e.seqno);
      if e.epoch < st.epoch || repeated then a'.records == a.records
      else Values(a'.records) == P.FoldOne(c.projection, Values(a.records), e)
  {
    VerdictIff(c.tracking, a.pub.value, e.epoch, e.seqno);
    var marked := MarkRecords(a.records, c.owned);
    SameValues(a.records, c.owned);
    SameValues(marked, c.owned);
    FoldValues(c.projection, a.records, e);
    FoldValues(c.projection, marked, e);
    FoldValues(c.projection, ClearRecords(a.records, c.owned), e);
    FoldValues(c.projection, ClearRecords(marked, c.owned), e);
  }

  lemma SameValues(records: Records, matches: Key -> bool)
    ensures Values(MarkRecords(records, matches)) == Values(records)
    ensures Values(ClearRecords(records, matches)) == Values(records)
  {
  }

  lemma FoldValues(p: P.Projection, records: Records, e: Event)
    requires p.Valid()
    ensures forall trust {:trigger FoldInto(p, records, e, trust)} ::
      Values(FoldInto(p, records, e, trust)) == P.FoldOne(p, Values(records), e)
  {
    forall trust
      ensures Values(FoldInto(p, records, e, trust)) == P.FoldOne(p, Values(records), e)
    {
    }
  }

  /** What is written carries the time the event was received, one more version, and whether members were
      turned away. */
  lemma WriteIsStamped(p: P.Projection, records: Records, e: Event, trust: Trust)
    requires p.Valid()
    ensures var r, o := FoldInto(p, records, e, trust), P.Apply(p, P.ValueAt(Values(records), e.key), e);
      e.op.TouchesKey() && o.Folded? && !o.m.action.Nothing? ==>
        && e.key in r && r[e.key].lastEventAt == e.observedAt && r[e.key].flag == trust
        && r[e.key].truncated == o.m.truncated
        && r[e.key].version == (if e.key in records then records[e.key].version else 0) + 1
        && r[e.key].createdAt == (if e.key in records then records[e.key].createdAt else e.observedAt)
  {
  }

  // ---------------------------------------------------------------- doubt lasts

  /** The event neither writes the key nor completes a snapshot. */
  predicate Leaves(e: Event, k: Key) { e.op != OpSnapshotEnd && (e.key != k || !e.op.TouchesKey()) }

  /** The key is known and not trusted. */
  predicate Doubted(records: Records, k: Key) { k in records && records[k].flag != Complete }

  lemma DoubtStays(c: Settings, a: Applied, e: Event, now: Time, k: Key)
    requires c.Valid() && Doubted(a.records, k) && Leaves(e, k)
    ensures var r := ApplyOrdered(c, a, e, now).records;
      Doubted(r, k) && r[k] == a.records[k].(flag := r[k].flag)
  {
    var v := VerdictOn(c, a.pub, e);
    if v.Accepted() {
      var doubted := if v.AcceptWithGap? || v.AcceptAfterRestart? then MarkRecords(a.records, c.owned) else a.records;
      FoldsItsKey(c.projection, doubted, e, Complete, k);
      FoldsItsKey(c.projection, doubted, e, Suspect, k);
    }
  }

  lemma {:induction false} DoubtOutlasts(c: Settings, a: Applied, out: seq<Event>, now: Time, k: Key)
    requires c.Valid() && Doubted(a.records, k) && forall i :: 0 <= i < |out| ==> Leaves(out[i], k)
    ensures Doubted(ApplyReleased(c, a, out, now).records, k)
    decreases |out|
  {
    if out != [] {
      DoubtStays(c, a, out[0], now, k);
      DoubtOutlasts(c, ApplyOrdered(c, a, out[0], now), out[1..], now, k);
    }
  }

  /** What the buffer lets through at one operation. */
  ghost function Out(c: Settings, s: Pipe, op: LineOp): seq<Event> {
    if op.PresentOp? then Offer(c.limits, s.line, op.e, op.e.observedAt).1 else Expire(c.limits, s.line, op.now).1
  }

  ghost function HandleOn(c: Settings, s: Pipe, ops: seq<LineOp>): Pipe
    requires c.Valid()
    decreases |ops|
  {
    if ops == [] then s else HandleOn(c, Handle(c, s, ops[0]), ops[1..])
  }

  /** Nothing let through along the way writes the key or completes a snapshot. */
  ghost predicate NothingRestores(c: Settings, s: Pipe, ops: seq<LineOp>, k: Key)
    requires c.Valid()
    decreases |ops|
  {
    ops == [] ||
      ((forall i :: 0 <= i < |Out(c, s, ops[0])| ==> Leaves(Out(c, s, ops[0])[i], k)) &&
       NothingRestores(c, Handle(c, s, ops[0]), ops[1..], k))
  }

  lemma {:induction false} DoubtSurvives(c: Settings, s: Pipe, ops: seq<LineOp>, k: Key)
    requires c.Valid() && Doubted(s.applied.records, k) && NothingRestores(c, s, ops, k)
    ensures Doubted(HandleOn(c, s, ops).applied.records, k)
    decreases |ops|
  {
    if ops != [] {
      DoubtOutlasts(c, s.applied, Out(c, s, ops[0]), ops[0].now, k);
      DoubtSurvives(c, Handle(c, s, ops[0]), ops[1..], k);
    }
  }

  /** The buffer lets through events of which the j-th shows a loss. */
  ghost predicate LosesAt(c: Settings, s: Pipe, op: LineOp, j: nat)
    requires c.Valid()
  {
    var out := Out(c, s, op);
    && j < |out|
    && var a := ApplyReleased(c, s.applied, out[..j], op.now);
       a.pub.Some? && Loses(c, a.pub.value, out[j])
  }

  lemma {:induction false} ReleasedInTwo(c: Settings, a: Applied, xs: seq<Event>, ys: seq<Event>, now: Time)
    requires c.Valid()
    ensures ApplyReleased(c, a, xs + ys, now) == ApplyReleased(c, ApplyReleased(c, a, xs, now), ys, now)
    decreases |xs|
  {
    if xs == [] {
      assert xs + ys == ys;
    } else {
      assert (xs + ys)[1..] == xs[1..] + ys;
      ReleasedInTwo(c, ApplyOrdered(c, a, xs[0], now), xs[1..], ys, now);
    }
  }

  /** Records are never forgotten by the applier. */
  lemma {:induction false} KeysStay(c: Settings, a: Applied, out: seq<Event>, now: Time, k: Key)
    requires c.Valid() && k in a.records
    ensures k in ApplyReleased(c, a, out, now).records
    decreases |out|
  {
    if out != [] {
      KeysStay(c, ApplyOrdered(c, a, out[0], now), out[1..], now, k);
    }
  }

  /** Loss means doubt, over every run. When something delivered or flushed shows that events were missed,
      or that the publisher started again, then every key it may own is suspect, and stays so until it
      is written again or a snapshot completes: whatever else is delivered, held, flushed or dropped. */
  lemma LossMeansDoubt(c: Settings, before: seq<LineOp>, op: LineOp, j: nat, after: seq<LineOp>, k: Key)
    requires c.Valid() && LosesAt(c, HandleAll(c, before), op, j)
    requires k in HandleAll(c, before).applied.records && c.owned(k)
    requires var out := Out(c, HandleAll(c, before), op);
      out[j].key != k && forall i :: j < i < |out| ==> Leaves(out[i], k)
    requires NothingRestores(c, Handle(c, HandleAll(c, before), op), after, k)
    ensures Doubted(HandleOn(c, Handle(c, HandleAll(c, before), op), after).applied.records, k)
  {
    var s := HandleAll(c, before);
    var out := Out(c, s, op);
    var a := ApplyReleased(c, s.applied, out[..j], op.now);
    KeysStay(c, s.applied, out[..j], op.now, k);
    LossCastsDoubt(c, a, out[j], op.now, k);
    var a1 := ApplyOrdered(c, a, out[j], op.now);
    DoubtOutlasts(c, a1, out[j + 1..], op.now, k);
    ReleasedInTwo(c, s.applied, out[..j], out[j..], op.now);
    assert out[..j] + out[j..] == out && out[j..][0] == out[j] && out[j..][1..] == out[j + 1..];
    DoubtSurvives(c, Handle(c, s, op), after, k);
  }
}
