/** What the mark of a line means (pkg/check/reorder.go).

    `oldestAt` is documented as when the first currently held event arrived. It is set when a line
    begins to hold and left alone until the line has emptied, so it outlives the event that set it
    when that event is let through and later ones stay. */
module ReorderMarks {
  import opened Events
  import opened Trackers
  import opened Reordering

  // ---------------------------------------------------------------- what an in-order event lets through

  /** The numbers from `from` on wait, up to `upto`, which does not. */
  ghost predicate RunsTo(held: Waiting, from: nat, upto: nat) {
    from <= upto && upto !in held && forall n: nat :: from <= n < upto ==> n in held
  }

  lemma {:induction false} ConsecutiveStops(line: Line)
    requires Queued(line.epoch, line.next, line.held)
    ensures var rest := Consecutive(line).0;
      RunsTo(line.held, line.next, rest.next) && forall n :: n in rest.held <==> n in line.held && n >= rest.next
    decreases |line.held|
  {
    if line.next in line.held {
      var popped := line.(next := Succ(line.next), held := line.held - {line.next});
      Shrinks(line.held, line.next);
      ConsecutiveStops(popped);
      var rest := Consecutive(popped).0;
      assert popped.next == line.next + 1 && Consecutive(line).0 == rest;
      assert forall n :: n in line.held <==> n in popped.held || n == line.next;
      assert RunsTo(popped.held, popped.next, rest.next);
    }
  }

  lemma RunsToOne(held: Waiting, from: nat, a: nat, b: nat)
    requires RunsTo(held, from, a) && RunsTo(held, from, b)
    ensures a == b
  {
    assert a < b ==> a in held;
    assert b < a ==> b in held;
  }

  // ---------------------------------------------------------------- the mark

  /** The mark is the earliest arrival among what waits. */
  ghost predicate Marked(line: Line, h: History) {
    line.held != map[] ==>
      && (forall n :: n in line.held ==> n in h.arrivals && line.oldestAt <= h.arrivals[n])
      && (exists n :: n in line.held && n in h.arrivals && h.arrivals[n] == line.oldestAt)
  }

  /** The event is the expected one, and the run of waiting numbers behind it takes in every event that
      arrived at the mark and stops short of another. */
  ghost predicate TakesMark(line: Line, h: History, op: LineOp) {
    && op.PresentOp? && line.started && op.e.epoch == line.epoch && op.e.seqno == line.next
    && exists upto: nat :: TakesUpto(line, h, upto)
  }

  ghost predicate TakesUpto(line: Line, h: History, upto: nat) {
    && RunsTo(line.held, line.next + 1, upto) && (exists n :: n in line.held && n > upto)
    && (forall n :: n in line.held && n in h.arrivals && h.arrivals[n] == line.oldestAt ==> n < upto)
  }

  /** What is left after the expected event. */
  lemma Left(c: Limits, line: Line, h: History, op: LineOp, upto: nat)
    requires c.window > 0 && InLine(c, line) && op.PresentOp? && op.e.seqno < MAX_UINT64
    requires !Opens(line, op.e) && op.e.seqno == line.next
    requires upto == Consecutive(line.(next := Succ(line.next))).0.next
    ensures var line' := AfterOp(c, line, op);
      && RunsTo(line.held, line.next + 1, upto) && line'.oldestAt == line.oldestAt
      && (forall n :: n in line'.held <==> n in line.held && n > upto)
  {
    ConsecutiveStops(line.(next := Succ(line.next)));
    OfferNext(c, line, op.e, op.now);
  }

  lemma ExpectedMark(c: Limits, line: Line, h: History, op: LineOp, clock: Time)
    requires c.window > 0 && Sound(c, line, h, clock) && op.PresentOp? && op.e.seqno < MAX_UINT64
    requires !Opens(line, op.e) && op.e.seqno == line.next
    requires line.held != map[] && AfterOp(c, line, op).held != map[]
    ensures Marked(AfterOp(c, line, op), HistoryAfter(c, line, h, op)) <==>
            Marked(line, h) && !TakesMark(line, h, op)
  {
    var upto := Consecutive(line.(next := Succ(line.next))).0.next;
    Left(c, line, h, op, upto);
    var line', h' := AfterOp(c, line, op), HistoryAfter(c, line, h, op);
    var left :| left in line'.held;
    assert forall n :: n in line'.held ==> h'.arrivals[n] == h.arrivals[n];
    if TakesMark(line, h, op) {
      var u :| TakesUpto(line, h, u);
      RunsToOne(line.held, line.next + 1, u, upto);
    } else if Marked(line, h) {
      assert !TakesUpto(line, h, upto);
    }
  }

  lemma LateMark(c: Limits, line: Line, h: History, op: LineOp, clock: Time)
    requires c.window > 0 && Sound(c, line, h, clock) && op.PresentOp? && Late(c, line, op.e)
    ensures Marked(AfterOp(c, line, op), HistoryAfter(c, line, h, op)) <==> Marked(line, h)
  {
  }

  /** An event that runs ahead leaves the mark as true as it was. */
  lemma AheadMark(c: Limits, line: Line, h: History, op: LineOp, clock: Time)
    requires c.window > 0 && c.maxHeld >= 1 && Sound(c, line, h, clock) && clock <= op.now && op.PresentOp?
    requires !Opens(line, op.e) && op.e.seqno > line.next && op.e.seqno < MAX_UINT64
    requires line.held != map[] && AfterOp(c, line, op).held != map[]
    ensures Marked(AfterOp(c, line, op), HistoryAfter(c, line, h, op)) <==> Marked(line, h)
  {
    var line', h' := AfterOp(c, line, op), HistoryAfter(c, line, h, op);
    StaysHeld(c, line, op.e, op.now);
    var n :| n in line.held;
    assert forall m :: m in line.held ==> m in line'.held && h'.arrivals[m] == h.arrivals[m];
    assert forall m :: m in line'.held && m !in line.held ==> h'.arrivals[m] == op.now >= h.arrivals[n];
  }

  lemma StaysHeld(c: Limits, line: Line, e: Event, now: Time)
    requires c.window > 0 && c.maxHeld >= 1 && InLine(c, line) && !Opens(line, e) && line.next < e.seqno < MAX_UINT64
    requires line.held != map[] && Offer(c, line, e, now).0.held != map[]
    ensures var line' := Offer(c, line, e, now).0;
      && line'.held == (if e.seqno in line.held then line.held else line.held[e.seqno := e])
      && line'.oldestAt == line.oldestAt
  {
    OfferAhead(c, line, e, now);
    DrainEmpties(line.(held := line.held[e.seqno := e]));
  }

  lemma FlushMark(c: Limits, line: Line, h: History, now: Time, clock: Time)
    requires Sound(c, line, h, clock) && Expire(c, line, now).0.held != map[]
    ensures Marked(Expire(c, line, now).0, Flushed(c, line, h, now)) <==> Marked(line, h)
  {
    DrainEmpties(line);
  }

  /** The mark of a line that begins to hold is true. */
  lemma FirstMark(c: Limits, line: Line, h: History, op: LineOp, clock: Time)
    requires c.window > 0 && c.maxHeld >= 1 && Sound(c, line, h, clock) && clock <= op.now && line.held == map[]
    requires op.PresentOp? ==> op.e.seqno < MAX_UINT64
    ensures Marked(AfterOp(c, line, op), HistoryAfter(c, line, h, op))
  {
    StepSound(c, line, h, clock, op);
    var line' := AfterOp(c, line, op);
    if line'.held != map[] {
      DrainEmpties(line.(held := line.held[op.e.seqno := op.e]));
      assert op.PresentOp? && !Opens(line, op.e) && op.e.seqno > line.next by {
        if op.PresentOp? && !Opens(line, op.e) && op.e.seqno == line.next {
          Left(c, line, h, op, Consecutive(line.(next := Succ(line.next))).0.next);
        }
        DrainEmpties(line);
      }
      assert op.e.seqno in line'.held;
    }
  }

  /** What a step does to the mark: it is true afterwards if nothing waits, or nothing waited before, or
      it was true and the step does not take it away. */
  lemma StepMark(c: Limits, line: Line, h: History, op: LineOp, clock: Time)
    requires c.window > 0 && c.maxHeld >= 1 && Sound(c, line, h, clock) && clock <= op.now
    requires op.PresentOp? ==> op.e.seqno < MAX_UINT64
    ensures Marked(AfterOp(c, line, op), HistoryAfter(c, line, h, op)) <==>
      (AfterOp(c, line, op).held == map[] || line.held == map[] || (Marked(line, h) && !TakesMark(line, h, op)))
  {
    if line.held == map[] {
      FirstMark(c, line, h, op, clock);
    } else if AfterOp(c, line, op).held != map[] {
      if op.FlushOp? {
        FlushMark(c, line, h, op.now, clock);
      } else if Opens(line, op.e) {
        OfferOpening(c, line, op.e, op.now);
      } else if op.e.seqno == line.next {
        ExpectedMark(c, line, h, op, clock);
      } else if Late(c, line, op.e) {
        LateMark(c, line, h, op, clock);
      } else {
        AheadMark(c, line, h, op, clock);
      }
    }
  }

  // ---------------------------------------------------------------- over runs

  /** Since the line last began to hold, an event let through took the mark with it. */
  ghost predicate MarkTaken(c: Limits, ops: seq<LineOp>)
    decreases |ops|
  {
    ops != [] &&
      var before, op := ops[..|ops| - 1], ops[|ops| - 1];
      var (line, h) := LineRun(c, before);
      && line.held != map[] && LineRun(c, ops).0.held != map[]
      && (MarkTaken(c, before) || TakesMark(line, h, op))
  }

  /** In every state of every run, the mark is the earliest arrival among what waits if and only if no
      event let through in order, since the line last began to hold, took every event that had arrived
      at the mark and left a later one. */
  lemma {:induction false} MarkIsEarliestIff(c: Limits, ops: seq<LineOp>)
    requires c.window > 0 && c.maxHeld >= 1 && Orderly(ops)
    ensures var (line, h) := LineRun(c, ops); Marked(line, h) <==> !MarkTaken(c, ops)
    decreases |ops|
  {
    if ops != [] {
      var before, op := ops[..|ops| - 1], ops[|ops| - 1];
      MarkIsEarliestIff(c, before);
      EveryLineIsSound(c, before, op.now);
      StepMark(c, LineRun(c, before).0, LineRun(c, before).1, op, op.now);
    }
  }

  /** A flush at this time would let everything go although nothing has waited out the window. */
  ghost predicate FlushesEarly(c: Limits, line: Line, h: History, now: Time) {
    && line.held != map[] && Expire(c, line, now).0.held == map[]
    && forall n :: n in line.held && n in h.arrivals ==> h.arrivals[n] > now - c.window
  }

  /** In every state of every run in which nothing has waited out the window yet, some flush to come
      would be too early if and only if the mark was taken. */
  lemma FlushedEarlyIff(c: Limits, ops: seq<LineOp>, clock: Time)
    requires c.window > 0 && c.maxHeld >= 1 && Orderly(ops) && (ops != [] ==> ops[|ops| - 1].now <= clock)
    requires var (line, h) := LineRun(c, ops);
      line.held != map[] && forall n :: n in line.held && n in h.arrivals ==> h.arrivals[n] > clock - c.window
    ensures var (line, h) := LineRun(c, ops);
      (exists now :: now >= clock && FlushesEarly(c, line, h, now)) <==> MarkTaken(c, ops)
  {
    var (line, h) := LineRun(c, ops);
    EveryLineIsSound(c, ops, clock);
    MarkIsEarliestIff(c, ops);
    DrainEmpties(line);
    if !Marked(line, h) {
      var ripe := line.oldestAt + c.window;
      assert FlushesEarly(c, line, h, if ripe > clock then ripe else clock);
    }
  }

  // ---------------------------------------------------------------- the run

  /** An event ahead of the expectation joins the held ones. */
  lemma JoinsHeld(c: Limits, line: Line, e: Event, now: Time)
    requires c.window > 0 && line.started && e.epoch == line.epoch && e.seqno > line.next && e.seqno !in line.held
    requires |line.held| + 1 < c.maxHeld
    ensures Offer(c, line, e, now) ==
      (line.(held := line.held[e.seqno := e], oldestAt := if line.held == map[] then now else line.oldestAt), [])
  {
    var more := line.held[e.seqno := e];
    assert more.Keys == line.held.Keys + {e.seqno} && |more.Keys| == |more| && |line.held.Keys| == |line.held|;
  }

  lemma ArrivesNow(held: Waiting, arrivals: map<nat, Time>, e: Event, now: Time)
    requires arrivals.Keys == held.Keys && e.seqno !in held
    ensures Arrivals(held[e.seqno := e], arrivals, now) == arrivals[e.seqno := now]
  {
  }

  /** And its arrival is noted. */
  lemma HeldStep(c: Limits, ops: seq<LineOp>, line: Line, e: Event, now: Time)
    requires c.window > 0 && line.started && e.epoch == line.epoch && e.seqno > line.next && e.seqno !in line.held
    requires LineRun(c, ops).0 == line && |line.held| + 1 < c.maxHeld
    requires LineRun(c, ops).1.arrivals.Keys == line.held.Keys
    ensures var (line', h') := LineRun(c, ops + [PresentOp(e, now)]);
      && line' == line.(held := line.held[e.seqno := e], oldestAt := if line.held == map[] then now else line.oldestAt)
      && h'.arrivals == LineRun(c, ops).1.arrivals[e.seqno := now]
  {
    RunSnoc(c, ops, PresentOp(e, now));
    JoinsHeld(c, line, e, now);
    ArrivesNow(line.held, LineRun(c, ops).1.arrivals, e, now);
  }

  lemma HoldsTwo(c: Limits, e1: Event, e3: Event, e5: Event)
    requires c.window > 0 && c.maxHeld >= 3 && e1.epoch == e3.epoch == e5.epoch
    requires e1.seqno == 1 && e3.seqno == 3 && e5.seqno == 5
    ensures var (line, h) := LineRun(c, [PresentOp(e1, 0)] + [PresentOp(e3, 0)] + [PresentOp(e5, c.window)]);
      && line == Line(true, e1.epoch, 2, map[3 := e3, 5 := e5], 0)
      && h.arrivals == map[3 := 0, 5 := c.window]
  {
    var one, two := [PresentOp(e1, 0)], [PresentOp(e1, 0)] + [PresentOp(e3, 0)];
    RunSnoc(c, [], PresentOp(e1, 0));
    assert [] + one == one;
    var l1 := Line(true, e1.epoch, 2, map[], 0);
    HeldStep(c, one, l1, e3, 0);
    assert l1.held[3 := e3] == map[3 := e3];
    HeldStep(c, two, l1.(held := map[3 := e3]), e5, c.window);
    assert map[3 := e3][5 := e5] == map[3 := e3, 5 := e5];
  }

  /** And it happens: a line holds one event, then another; the first is let through in order, the mark
      stays, and the flush releases the second after no wait at all. */
  lemma MarkOutlivesItsEvent(c: Limits, e1: Event, e2: Event, e3: Event, e5: Event)
    requires c.window > 0 && c.maxHeld >= 3 && e1.epoch == e2.epoch == e3.epoch == e5.epoch
    requires e1.seqno == 1 && e2.seqno == 2 && e3.seqno == 3 && e5.seqno == 5
    ensures var ops := [PresentOp(e1, 0)] + [PresentOp(e3, 0)] + [PresentOp(e5, c.window)] + [PresentOp(e2, c.window)];
      var (line, h) := LineRun(c, ops);
      && Orderly(ops) && 5 in line.held && 5 in h.arrivals && h.arrivals[5] == c.window
      && 5 !in Expire(c, line, c.window).0.held
  {
    var three := [PresentOp(e1, 0)] + [PresentOp(e3, 0)] + [PresentOp(e5, c.window)];
    var line := Line(true, e1.epoch, 2, map[3 := e3, 5 := e5], 0);
    HoldsTwo(c, e1, e3, e5);
    RunSnoc(c, three, PresentOp(e2, c.window));
    LetThrough(c, line, e2, e3, e5);
    DrainEmpties(line.(next := 4, held := map[5 := e5]));
  }

  lemma DrainEmpties(line: Line)
    ensures Drain(line).0.held == map[]
  {
    AscendingHeld(line.held);
  }

  lemma LetThrough(c: Limits, line: Line, e2: Event, e3: Event, e5: Event)
    requires c.window > 0 && line.started && e2.epoch == line.epoch && line.next == 2 && e2.seqno == 2
    requires line.held == map[3 := e3, 5 := e5]
    ensures Offer(c, line, e2, c.window).0 == line.(next := 4, held := map[5 := e5])
  {
    var stepped := line.(next := 3);
    assert line.held - {3} == map[5 := e5];
    assert Consecutive(stepped).0 == Consecutive(line.(next := 4, held := map[5 := e5])).0;
  }
}
