/** The bounded reorder buffer in front of the tracker (pkg/check/reorder.go). */
module Reordering {
  import opened Events
  import opened Trackers

  /** How long an event may wait for its predecessor, and how many may wait at once. */
  datatype Limits = Limits(window: Time, maxHeld: nat)

  type Waiting = map<nat, Event>

  /** One publisher's line. */
  datatype Line = Line(started: bool, epoch: nat, next: nat, held: Waiting, oldestAt: Time)

  function NewLine(): Line { Line(false, 0, 0, map[], 0) }

  // ---------------------------------------------------------------- what the operations compute

  ghost predicate Lowest(held: Waiting, n: nat) {
    n in held && forall m :: m in held ==> n <= m
  }

  lemma {:induction false} HasLowest(held: Waiting, n: nat)
    requires n in held
    ensures exists m :: Lowest(held, m)
    decreases n
  {
    if !Lowest(held, n) {
      var m :| m in held && m < n;
      HasLowest(held, m);
    }
  }

  ghost function First(held: Waiting): (n: nat)
    requires held != map[]
    ensures Lowest(held, n)
  {
    var k :| k in held;
    HasLowest(held, k);
    var n :| Lowest(held, n);
    n
  }

  /** Everything held, by ascending number. */
  ghost function Ascending(held: Waiting): seq<Event>
    decreases |held|
  {
    if held == map[] then []
    else
      var n := First(held);
      Shrinks(held, n);
      [held[n]] + Ascending(held - {n})
  }

  lemma Shrinks(held: Waiting, n: nat)
    requires n in held
    ensures |held - {n}| == |held| - 1
  {
    assert (held - {n}).Keys == held.Keys - {n};
    assert |held.Keys| == |held| && |(held - {n}).Keys| == |held - {n}|;
  }

  /** The run of held events that starts at next, and the line without it. */
  ghost function Consecutive(line: Line): (r: (Line, seq<Event>))
    decreases |line.held|
  {
    if line.next !in line.held then (line, [])
    else
      Shrinks(line.held, line.next);
      var (rest, out) := Consecutive(line.(next := Succ(line.next), held := line.held - {line.next}));
      (rest, [line.held[line.next]] + out)
  }

  /** Everything held is let go; the expectation moves past the highest number. */
  ghost function Drain(line: Line): (r: (Line, seq<Event>)) {
    var out := Ascending(line.held);
    if out == [] then (line, [])
    else
      var last := out[|out| - 1].seqno;
      (line.(held := map[], next := if last >= line.next then Succ(last) else line.next), out)
  }

  ghost function Hold(c: Limits, line: Line, e: Event, now: Time): (r: (Line, seq<Event>)) {
    var held :=
      if e.seqno in line.held then line
      else line.(held := line.held[e.seqno := e], oldestAt := if line.held == map[] then now else line.oldestAt);
    if |held.held| < c.maxHeld then (held, []) else Drain(held)
  }

  /** One event presented to its publisher's line. */
  ghost function Offer(c: Limits, line: Line, e: Event, now: Time): (r: (Line, seq<Event>)) {
    if c.window <= 0 then (line, [e])
    else if !line.started then (line.(started := true, epoch := e.epoch, next := Succ(e.seqno)), [e])
    else if e.epoch != line.epoch then
      var (drained, out) := Drain(line);
      (drained.(epoch := e.epoch, next := Succ(e.seqno)), out + [e])
    else if e.seqno < line.next then (line, [e])
    else if e.seqno == line.next then
      var (rest, out) := Consecutive(line.(next := Succ(line.next)));
      (rest, [e] + out)
    else Hold(c, line, e, now)
  }

  ghost function Expire(c: Limits, line: Line, now: Time): (r: (Line, seq<Event>)) {
    if c.window <= 0 || line.held == map[] || now - line.oldestAt < c.window then (line, [])
    else Drain(line)
  }

  // ---------------------------------------------------------------- what they mean

  /** Held events sit at their own number, from a bound upward, and belong to one epoch. */
  ghost predicate Queued(epoch: nat, from: nat, held: Waiting) {
    forall n :: n in held ==> from <= n < MAX_UINT64 && held[n].seqno == n && held[n].epoch == epoch
  }

  /** Strictly ascending numbers within [from, to). */
  ghost predicate Rising(out: seq<Event>, from: int, to: int) {
    if out == [] then from <= to else from <= out[0].seqno < to && Rising(out[1..], out[0].seqno + 1, to)
  }

  lemma {:induction false} RisingMeans(out: seq<Event>, from: int, to: int)
    requires Rising(out, from, to)
    ensures from <= to && forall i :: 0 <= i < |out| ==> from <= out[i].seqno < to
    ensures forall i, j :: 0 <= i < j < |out| ==> out[i].seqno < out[j].seqno
  {
    if out != [] {
      RisingMeans(out[1..], out[0].seqno + 1, to);
      assert forall i :: 1 <= i < |out| ==> out[i] == out[1..][i - 1];
    }
  }

  ghost predicate OfEpoch(out: seq<Event>, epoch: nat) {
    forall i :: 0 <= i < |out| ==> out[i].epoch == epoch
  }

  function Those(held: Waiting): set<Event> { set n | n in held :: held[n] }

  ghost function Bag(held: Waiting): multiset<Event> { multiset(Those(held)) }

  lemma EmptyBag(held: Waiting)
    requires held == map[]
    ensures Bag(held) == multiset{}
  {
    assert Those(held) == {};
  }

  lemma TakeOut(epoch: nat, from: nat, held: Waiting, n: nat)
    requires Queued(epoch, from, held) && n in held
    ensures Queued(epoch, from, held - {n}) && Bag(held) == multiset{held[n]} + Bag(held - {n})
  {
    var rest := held - {n};
    forall e
      ensures e in Those(held) <==> e in Those(rest) || e == held[n]
    {
      if e in Those(held) && e != held[n] {
        var m :| m in held && held[m] == e;
        assert rest[m] == e;
      }
    }
    assert Those(held) == Those(rest) + {held[n]};
    assert held[n] !in Those(rest);
  }

  lemma PutIn(epoch: nat, from: nat, held: Waiting, e: Event)
    requires Queued(epoch, from, held) && e.seqno !in held && e.epoch == epoch && from <= e.seqno < MAX_UINT64
    ensures Queued(epoch, from, held[e.seqno := e]) && Bag(held[e.seqno := e]) == Bag(held) + multiset{e}
  {
    var more := held[e.seqno := e];
    assert more - {e.seqno} == held;
    TakeOut(epoch, from, more, e.seqno);
  }

  /** The bound just past the last number. */
  function Past(out: seq<Event>, from: nat): nat {
    if out == [] then from else out[|out| - 1].seqno + 1
  }

  lemma Prepend(first: Event, rest: seq<Event>, from: int, to: int, epoch: nat)
    requires Rising(rest, first.seqno + 1, to) && from <= first.seqno < to && OfEpoch(rest, epoch)
    requires first.epoch == epoch
    ensures Rising([first] + rest, from, to) && OfEpoch([first] + rest, epoch)
    ensures multiset([first] + rest) == multiset{first} + multiset(rest)
  {
    assert ([first] + rest)[1..] == rest;
  }

  /** Releasing everything loses nothing and is in order. */
  lemma {:induction false} AscendingMeaning(epoch: nat, from: nat, held: Waiting)
    requires Queued(epoch, from, held)
    ensures multiset(Ascending(held)) == Bag(held) && OfEpoch(Ascending(held), epoch)
    ensures Ascending(held) == [] <==> held == map[]
    ensures Rising(Ascending(held), from, Past(Ascending(held), from)) && Past(Ascending(held), 0) <= MAX_UINT64
    decreases |held|
  {
    if held != map[] {
      var n := First(held);
      Shrinks(held, n);
      TakeOut(epoch, from, held, n);
      AscendingMeaning(epoch, n + 1, held - {n});
      Prepend(held[n], Ascending(held - {n}), from, Past(Ascending(held - {n}), n + 1), epoch);
    } else {
      EmptyBag(held);
    }
  }

  lemma {:induction false} ConsecutiveMeaning(line: Line)
    requires Queued(line.epoch, line.next, line.held)
    ensures var (rest, out) := Consecutive(line);
      && Queued(line.epoch, rest.next + 1, rest.held) && |rest.held| <= |line.held|
      && rest == line.(next := rest.next, held := rest.held)
      && Bag(line.held) == multiset(out) + Bag(rest.held) && OfEpoch(out, line.epoch)
      && Rising(out, line.next, rest.next)
      && (rest.next == line.next || rest.next <= MAX_UINT64)
      && rest.held.Keys <= line.held.Keys
    decreases |line.held|
  {
    if line.next in line.held {
      var popped := line.(next := Succ(line.next), held := line.held - {line.next});
      Shrinks(line.held, line.next);
      TakeOut(line.epoch, line.next, line.held, line.next);
      ConsecutiveMeaning(popped);
      var (rest, out) := Consecutive(popped);
      RisingMeans(out, popped.next, rest.next);
      Prepend(line.held[line.next], out, line.next, rest.next, line.epoch);
    }
  }

  /** What holds of a line between calls: every number held is beyond the next expected, and fewer
      than the cap are held. */
  ghost predicate InLine(c: Limits, line: Line) {
    && |line.held| < c.maxHeld && line.next <= MAX_UINT64
    && (!line.started ==> line.held == map[])
    && Queued(line.epoch, line.next + 1, line.held)
  }

  lemma DrainMeaning(line: Line)
    requires line.next <= MAX_UINT64 && Queued(line.epoch, line.next + 1, line.held)
    ensures var (rest, out) := Drain(line);
      && rest == line.(next := rest.next, held := map[]) && rest.next <= MAX_UINT64
      && multiset(out) == Bag(line.held) && OfEpoch(out, line.epoch)
      && Rising(out, line.next, rest.next)
  {
    AscendingMeaning(line.epoch, line.next + 1, line.held);
    var out := Ascending(line.held);
    if out != [] {
      RisingMeans(out, line.next + 1, out[|out| - 1].seqno + 1);
    }
  }

  /** Behind the expectation: passed straight on for the tracker to judge. */
  predicate Late(c: Limits, line: Line, e: Event) {
    c.window <= 0 || (line.started && e.epoch == line.epoch && e.seqno < line.next)
  }

  /** The number is already waiting. */
  predicate Repeats(line: Line, e: Event) {
    line.started && e.epoch == line.epoch && e.seqno in line.held
  }

  /** The first event of a line, or one from another epoch than the line is in. */
  predicate Opens(line: Line, e: Event) {
    !line.started || e.epoch != line.epoch
  }

  /** A bag of the one event when it repeats a waiting number. */
  ghost function Refused(c: Limits, line: Line, e: Event): multiset<Event> {
    if !Late(c, line, e) && Repeats(line, e) then multiset{e} else multiset{}
  }

  lemma OfferOpening(c: Limits, line: Line, e: Event, now: Time)
    requires c.window > 0 && c.maxHeld >= 1 && InLine(c, line) && e.seqno < MAX_UINT64 && Opens(line, e)
    ensures var (line', out) := Offer(c, line, e, now);
      && InLine(c, line') && line'.started && line'.epoch == e.epoch && line'.next == e.seqno + 1 && line'.held == map[]
      && out == Drain(line).1 + [e] && multiset(out) == Bag(line.held) + multiset{e}
  {
    DrainMeaning(line);
  }

  /** A line can only move forward: the same epoch, and nothing below the expectation. */
  ghost predicate Forward(c: Limits, line: Line, line': Line, out: seq<Event>) {
    && InLine(c, line') && line'.started == line.started && line'.epoch == line.epoch
    && OfEpoch(out, line.epoch) && Rising(out, line.next, line'.next)
  }

  lemma OfferNext(c: Limits, line: Line, e: Event, now: Time)
    requires c.window > 0 && InLine(c, line) && e.seqno < MAX_UINT64 && !Opens(line, e) && e.seqno == line.next
    ensures var (line', out) := Offer(c, line, e, now);
      && Forward(c, line, line', out) && line'.held.Keys <= line.held.Keys && line'.oldestAt == line.oldestAt
      && multiset(out) + Bag(line'.held) + Refused(c, line, e) == Bag(line.held) + multiset{e}
  {
    var stepped := line.(next := Succ(line.next));
    ConsecutiveMeaning(stepped);
    var (rest, out) := Consecutive(stepped);
    RisingMeans(out, stepped.next, rest.next);
    Prepend(e, out, line.next, rest.next, line.epoch);
  }

  lemma HoldMeaning(c: Limits, line: Line)
    requires c.maxHeld >= 1 && line.next <= MAX_UINT64 && line.started && Queued(line.epoch, line.next + 1, line.held)
    ensures var (line', out) := if |line.held| < c.maxHeld then (line, []) else Drain(line);
      && Forward(c, line, line', out) && line'.oldestAt == line.oldestAt
      && multiset(out) + Bag(line'.held) == Bag(line.held)
  {
    DrainMeaning(line);
    EmptyBag(map[]);
  }

  lemma OfferAhead(c: Limits, line: Line, e: Event, now: Time)
    requires c.window > 0 && c.maxHeld >= 1 && InLine(c, line) && e.seqno < MAX_UINT64 && !Opens(line, e)
    requires e.seqno > line.next
    ensures var (line', out) := Offer(c, line, e, now);
      && Forward(c, line, line', out)
      && multiset(out) + Bag(line'.held) + Refused(c, line, e) == Bag(line.held) + multiset{e}
      && (line.held == map[] && line'.held != map[] ==> line'.oldestAt == now)
      && (line.held != map[] ==> line'.oldestAt == line.oldestAt)
  {
    if e.seqno !in line.held {
      PutIn(line.epoch, line.next + 1, line.held, e);
      HoldMeaning(c, line.(held := line.held[e.seqno := e],
        oldestAt := if line.held == map[] then now else line.oldestAt));
    }
  }

  lemma ExpireMeaning(c: Limits, line: Line, now: Time)
    requires c.maxHeld >= 1 && InLine(c, line)
    ensures var (line', out) := Expire(c, line, now);
      && Forward(c, line, line', out) && line'.held.Keys <= line.held.Keys && line'.oldestAt == line.oldestAt
      && multiset(out) + Bag(line'.held) == Bag(line.held)
      && (c.window > 0 && line'.held != map[] ==> now - line'.oldestAt < c.window)
  {
    DrainMeaning(line);
    EmptyBag(map[]);
  }

  // ---------------------------------------------------------------- the history of a line

  /** A release: whether it was passed on late, and during which stay in an epoch. */
  datatype Entry = Entry(event: Event, late: bool, stay: nat)

  /** What was offered, what was released and in which order, which offers repeated a waiting
      number, and when each waiting event arrived. */
  datatype History = History(offered: multiset<Event>, log: seq<Entry>, repeats: multiset<Event>, stay: nat,
    arrivals: map<nat, Time>)

  function NewHistory(): History { History(multiset{}, [], multiset{}, 0, map[]) }

  function Stamp(out: seq<Event>, late: bool, stay: nat): (r: seq<Entry>)
    ensures |r| == |out| && forall i :: 0 <= i < |r| ==> r[i] == Entry(out[i], late, stay)
  {
    seq(|out|, i requires 0 <= i < |out| => Entry(out[i], late, stay))
  }

  function Released(log: seq<Entry>): (r: seq<Event>)
    ensures |r| == |log| && forall i :: 0 <= i < |r| ==> r[i] == log[i].event
  {
    seq(|log|, i requires 0 <= i < |log| => log[i].event)
  }

  lemma ReleasedMore(log: seq<Entry>, out: seq<Event>, late: bool, stay: nat)
    ensures Released(log + Stamp(out, late, stay)) == Released(log) + out
  {
  }

  ghost function LogAfter(c: Limits, line: Line, h: History, e: Event, out: seq<Event>): seq<Entry> {
    if Late(c, line, e) then h.log + Stamp(out, true, h.stay)
    else if Opens(line, e) && out != [] then
      h.log + Stamp(out[..|out| - 1], false, h.stay) + Stamp([e], false, h.stay + 1)
    else h.log + Stamp(out, false, h.stay)
  }

  /** The history after an event was presented that released out and left held waiting. */
  ghost function Noted(c: Limits, line: Line, h: History, e: Event, now: Time, held: Waiting,
      out: seq<Event>): History {
    History(
      h.offered + multiset{e},
      LogAfter(c, line, h, e, out),
      h.repeats + Refused(c, line, e),
      if !Late(c, line, e) && Opens(line, e) then h.stay + 1 else h.stay,
      Arrivals(held, h.arrivals, now))
  }

  ghost function Presented(c: Limits, line: Line, h: History, e: Event, now: Time): History {
    Noted(c, line, h, e, now, Offer(c, line, e, now).0.held, Offer(c, line, e, now).1)
  }

  ghost function Flushed(c: Limits, line: Line, h: History, now: Time): History {
    var (line', out) := Expire(c, line, now);
    h.(log := h.log + Stamp(out, false, h.stay),
       arrivals := Arrivals(line'.held, h.arrivals, now))
  }

  /** Releases that were not late strictly ascend within each stay, and the current stay is below
      the expectation. */
  ghost predicate LogGood(log: seq<Entry>, stay: nat, epoch: nat, next: nat) {
    && (forall i :: 0 <= i < |log| ==> log[i].stay <= stay)
    && (forall i :: 0 <= i < |log| && !log[i].late && log[i].stay == stay ==>
         log[i].event.epoch == epoch && log[i].event.seqno < next)
    && (forall i, j {:trigger InOrder(log, i, j)} :: 0 <= i < j < |log| ==> InOrder(log, i, j))
  }

  ghost predicate InOrder(log: seq<Entry>, i: int, j: int)
    requires 0 <= i < |log| && 0 <= j < |log|
  {
    !log[i].late && !log[j].late && log[i].stay == log[j].stay ==>
      log[i].event.epoch == log[j].event.epoch && log[i].event.seqno < log[j].event.seqno
  }

  /** Every offered event was released exactly once, is still held, or repeated a held number. */
  ghost predicate Conserved(line: Line, h: History) {
    h.offered == multiset(Released(h.log)) + Bag(line.held) + h.repeats
  }

  /** No event has waited longer than the line's oldest mark says. */
  ghost predicate Waits(held: Waiting, oldestAt: Time, arrivals: map<nat, Time>, clock: Time) {
    arrivals.Keys == held.Keys && forall n :: n in held ==> oldestAt <= arrivals[n] <= clock
  }

  ghost predicate Sound(c: Limits, line: Line, h: History, clock: Time) {
    && InLine(c, line) && Conserved(line, h) && LogGood(h.log, h.stay, line.epoch, line.next)
    && Waits(line.held, line.oldestAt, h.arrivals, clock)
  }

  lemma AppendForward(log: seq<Entry>, stay: nat, epoch: nat, next: nat, out: seq<Event>, next': nat)
    requires LogGood(log, stay, epoch, next) && OfEpoch(out, epoch) && Rising(out, next, next')
    ensures LogGood(log + Stamp(out, false, stay), stay, epoch, next')
  {
    RisingMeans(out, next, next');
    var more := log + Stamp(out, false, stay);
    forall i, j | 0 <= i < j < |more|
      ensures InOrder(more, i, j)
    {
      assert j < |log| ==> InOrder(log, i, j);
    }
  }

  lemma AppendLate(log: seq<Entry>, stay: nat, epoch: nat, next: nat, out: seq<Event>)
    requires LogGood(log, stay, epoch, next)
    ensures LogGood(log + Stamp(out, true, stay), stay, epoch, next)
  {
    var more := log + Stamp(out, true, stay);
    forall i, j | 0 <= i < j < |more|
      ensures InOrder(more, i, j)
    {
      assert j < |log| ==> InOrder(log, i, j);
    }
  }

  lemma NewStay(log: seq<Entry>, stay: nat, epoch: nat, next: nat, e: Event)
    requires LogGood(log, stay, epoch, next)
    ensures LogGood(log + Stamp([e], false, stay + 1), stay + 1, e.epoch, e.seqno + 1)
  {
    var more := log + Stamp([e], false, stay + 1);
    forall i, j | 0 <= i < j < |more|
      ensures InOrder(more, i, j)
    {
      assert j < |log| ==> InOrder(log, i, j);
    }
  }

  lemma LateSound(c: Limits, line: Line, h: History, e: Event, now: Time, clock: Time)
    requires Sound(c, line, h, clock) && clock <= now && Late(c, line, e)
    ensures Offer(c, line, e, now) == (line, [e]) && Sound(c, line, Presented(c, line, h, e, now), now)
  {
    AppendLate(h.log, h.stay, line.epoch, line.next, [e]);
    ReleasedMore(h.log, [e], true, h.stay);
  }

  /** Arrival times of what waits now: known ones are kept, new ones arrive now. */
  ghost function Arrivals(held: Waiting, arrivals: map<nat, Time>, now: Time): map<nat, Time> {
    map n | n in held :: if n in arrivals then arrivals[n] else now
  }

  lemma WaitsOn(held: Waiting, oldestAt: Time, arrivals: map<nat, Time>, clock: Time, held': Waiting, oldestAt': Time,
      now: Time)
    requires Waits(held, oldestAt, arrivals, clock) && clock <= now
    requires held != map[] ==> oldestAt' == oldestAt
    requires held == map[] && held' != map[] ==> oldestAt' == now
    ensures Waits(held', oldestAt', Arrivals(held', arrivals, now), now)
  {
    if held != map[] {
      var n :| n in held;
      assert oldestAt <= arrivals[n] <= now;
    }
  }

  lemma OpeningStamps(log: seq<Entry>, stay: nat, epoch: nat, next: nat, pre: seq<Event>, next': nat, e: Event)
    requires LogGood(log, stay, epoch, next) && OfEpoch(pre, epoch) && Rising(pre, next, next')
    ensures LogGood(log + Stamp(pre, false, stay) + Stamp([e], false, stay + 1), stay + 1, e.epoch, e.seqno + 1)
    ensures Released(log + Stamp(pre, false, stay) + Stamp([e], false, stay + 1)) == Released(log) + (pre + [e])
  {
    AppendForward(log, stay, epoch, next, pre, next');
    NewStay(log + Stamp(pre, false, stay), stay, epoch, next', e);
    ReleasedMore(log, pre, false, stay);
    ReleasedMore(log + Stamp(pre, false, stay), [e], false, stay + 1);
  }

  lemma OpeningLog(c: Limits, h: History, line: Line, e: Event, pre: seq<Event>)
    requires c.window > 0 && Opens(line, e)
    ensures LogAfter(c, line, h, e, pre + [e]) == h.log + Stamp(pre, false, h.stay) + Stamp([e], false, h.stay + 1)
  {
    assert (pre + [e])[..|pre|] == pre;
  }

  /** Moving events between bags keeps the sum. */
  lemma BagsAddUp(offered: multiset<Event>, released: multiset<Event>, held: multiset<Event>, repeats: multiset<Event>,
                  e: Event, out: multiset<Event>, held': multiset<Event>, refused: multiset<Event>)
    requires offered == released + held + repeats && out + held' + refused == held + multiset{e}
    ensures offered + multiset{e} == (released + out) + held' + (repeats + refused)
  {
    assert offered + multiset{e} == released + repeats + (held + multiset{e});
    assert (released + out) + held' + (repeats + refused) == released + repeats + (out + held' + refused);
  }

  lemma OpeningLogGood(c: Limits, line: Line, h: History, e: Event, pre: seq<Event>)
    requires c.window > 0 && Opens(line, e) && pre == Drain(line).1
    requires line.next <= MAX_UINT64 && Queued(line.epoch, line.next + 1, line.held)
    requires LogGood(h.log, h.stay, line.epoch, line.next)
    ensures LogGood(LogAfter(c, line, h, e, pre + [e]), h.stay + 1, e.epoch, e.seqno + 1)
    ensures Released(LogAfter(c, line, h, e, pre + [e])) == Released(h.log) + (pre + [e])
  {
    DrainMeaning(line);
    OpeningStamps(h.log, h.stay, line.epoch, line.next, pre, Drain(line).0.next, e);
    OpeningLog(c, h, line, e, pre);
  }

  lemma OpeningSound(c: Limits, line: Line, h: History, e: Event, now: Time, clock: Time)
    requires c.window > 0 && c.maxHeld >= 1 && Sound(c, line, h, clock) && clock <= now && Opens(line, e)
    requires e.seqno < MAX_UINT64
    ensures Sound(c, Offer(c, line, e, now).0, Presented(c, line, h, e, now), now)
  {
    OfferOpening(c, line, e, now);
    OpeningStep(c, line, h, e, now, clock, Offer(c, line, e, now).0, Drain(line).1);
  }

  lemma OpeningStep(c: Limits, line: Line, h: History, e: Event, now: Time, clock: Time, line': Line, pre: seq<Event>)
    requires c.window > 0 && Sound(c, line, h, clock) && Opens(line, e) && pre == Drain(line).1
    requires InLine(c, line') && line'.epoch == e.epoch && line'.next == e.seqno + 1 && line'.held == map[]
    requires multiset(pre + [e]) == Bag(line.held) + multiset{e}
    ensures Sound(c, line', Noted(c, line, h, e, now, line'.held, pre + [e]), now)
  {
    OpeningLogGood(c, line, h, e, pre);
    OpeningKeeps(c, line, h, e, now, line', pre + [e], LogAfter(c, line, h, e, pre + [e]));
  }

  lemma OpeningKeeps(c: Limits, line: Line, h: History, e: Event, now: Time, line': Line, out: seq<Event>,
      log: seq<Entry>)
    requires Conserved(line, h) && multiset(out) == Bag(line.held) + multiset{e}
    requires InLine(c, line') && line'.epoch == e.epoch && line'.next == e.seqno + 1 && line'.held == map[]
    requires LogGood(log, h.stay + 1, e.epoch, e.seqno + 1) && Released(log) == Released(h.log) + out
    ensures Sound(c, line', History(h.offered + multiset{e}, log, h.repeats + multiset{}, h.stay + 1,
      Arrivals(map[], h.arrivals, now)), now)
  {
    EmptyBag(line'.held);
    BagsAddUp(h.offered, multiset(Released(h.log)), Bag(line.held), h.repeats, e, multiset(out), Bag(line'.held),
      multiset{});
  }

  /** A step within the epoch keeps the books, given what it released. */
  lemma ForwardKeeps(c: Limits, line: Line, h: History, e: Event, now: Time, clock: Time, line': Line, out: seq<Event>)
    requires Sound(c, line, h, clock) && clock <= now && !Late(c, line, e) && !Opens(line, e)
    requires Forward(c, line, line', out)
    requires multiset(out) + Bag(line'.held) + Refused(c, line, e) == Bag(line.held) + multiset{e}
    requires line.held != map[] ==> line'.oldestAt == line.oldestAt
    requires line.held == map[] && line'.held != map[] ==> line'.oldestAt == now
    ensures Sound(c, line', Noted(c, line, h, e, now, line'.held, out), now)
  {
    AppendForward(h.log, h.stay, line.epoch, line.next, out, line'.next);
    ReleasedMore(h.log, out, false, h.stay);
    BagsAddUp(h.offered, multiset(Released(h.log)), Bag(line.held), h.repeats, e, multiset(out), Bag(line'.held),
      Refused(c, line, e));
    WaitsOn(line.held, line.oldestAt, h.arrivals, clock, line'.held, line'.oldestAt, now);
  }

  lemma ForwardSound(c: Limits, line: Line, h: History, e: Event, now: Time, clock: Time)
    requires c.window > 0 && c.maxHeld >= 1 && Sound(c, line, h, clock) && clock <= now && !Late(c, line, e)
    requires !Opens(line, e) && e.seqno < MAX_UINT64
    ensures Sound(c, Offer(c, line, e, now).0, Presented(c, line, h, e, now), now)
  {
    if e.seqno == line.next {
      OfferNext(c, line, e, now);
    } else {
      OfferAhead(c, line, e, now);
    }
    ForwardKeeps(c, line, h, e, now, clock, Offer(c, line, e, now).0, Offer(c, line, e, now).1);
  }

  lemma FlushSound(c: Limits, line: Line, h: History, now: Time, clock: Time)
    requires c.maxHeld >= 1 && Sound(c, line, h, clock) && clock <= now
    ensures Sound(c, Expire(c, line, now).0, Flushed(c, line, h, now), now)
    ensures forall n :: n in Expire(c, line, now).0.held && c.window > 0 ==>
      n in Flushed(c, line, h, now).arrivals && Flushed(c, line, h, now).arrivals[n] > now - c.window
  {
    var (line', out) := Expire(c, line, now);
    ExpireMeaning(c, line, now);
    AppendForward(h.log, h.stay, line.epoch, line.next, out, line'.next);
    ReleasedMore(h.log, out, false, h.stay);
  }

  lemma PresentSound(c: Limits, line: Line, h: History, e: Event, now: Time, clock: Time)
    requires c.maxHeld >= 1 && Sound(c, line, h, clock) && clock <= now && e.seqno < MAX_UINT64
    ensures Sound(c, Offer(c, line, e, now).0, Presented(c, line, h, e, now), now)
  {
    if Late(c, line, e) {
      LateSound(c, line, h, e, now, clock);
    } else if Opens(line, e) {
      OpeningSound(c, line, h, e, now, clock);
    } else {
      ForwardSound(c, line, h, e, now, clock);
    }
  }

  // ---------------------------------------------------------------- every run of one line

  datatype LineOp = PresentOp(e: Event, now: Time) | FlushOp(now: Time)

  ghost function AfterOp(c: Limits, line: Line, op: LineOp): Line {
    if op.PresentOp? then Offer(c, line, op.e, op.now).0 else Expire(c, line, op.now).0
  }

  ghost function HistoryAfter(c: Limits, line: Line, h: History, op: LineOp): History {
    if op.PresentOp? then Presented(c, line, h, op.e, op.now) else Flushed(c, line, h, op.now)
  }

  ghost function LineRun(c: Limits, ops: seq<LineOp>): (Line, History)
    decreases |ops|
  {
    if ops == [] then (NewLine(), NewHistory())
    else
      var (line, h) := LineRun(c, ops[..|ops| - 1]);
      (AfterOp(c, line, ops[|ops| - 1]), HistoryAfter(c, line, h, ops[|ops| - 1]))
  }

  /** Numbers below the top, times that never run backwards. */
  ghost predicate Orderly(ops: seq<LineOp>) {
    && (forall i :: 0 <= i < |ops| && ops[i].PresentOp? ==> ops[i].e.seqno < MAX_UINT64)
    && (forall i, j :: 0 <= i < j < |ops| ==> ops[i].now <= ops[j].now)
  }

  /** The reorder buffer on every run: nothing is lost or released twice, every number held is
      beyond the expectation, fewer than the cap are held, and releases that were not late ascend
      within each stay in an epoch. */
  lemma {:induction false} EveryLineIsSound(c: Limits, ops: seq<LineOp>, clock: Time)
    requires c.maxHeld >= 1 && Orderly(ops) && (ops != [] ==> ops[|ops| - 1].now <= clock)
    ensures Sound(c, LineRun(c, ops).0, LineRun(c, ops).1, clock)
    decreases |ops|
  {
    if ops == [] {
      EmptyBag(map[]);
    } else {
      var before, op := ops[..|ops| - 1], ops[|ops| - 1];
      EveryLineIsSound(c, before, op.now);
      StepSound(c, LineRun(c, before).0, LineRun(c, before).1, op.now, op);
    }
  }

  lemma StepSound(c: Limits, line: Line, h: History, clock: Time, op: LineOp)
    requires c.maxHeld >= 1 && Sound(c, line, h, clock) && clock <= op.now
    requires op.PresentOp? ==> op.e.seqno < MAX_UINT64
    ensures Sound(c, AfterOp(c, line, op), HistoryAfter(c, line, h, op), op.now)
  {
    if op.PresentOp? {
      PresentSound(c, line, h, op.e, op.now, clock);
    } else {
      FlushSound(c, line, h, op.now, clock);
    }
  }

  /** After a flush nothing that arrived at or before now - window still waits. */
  lemma NothingOverstays(c: Limits, ops: seq<LineOp>, now: Time)
    requires c.maxHeld >= 1 && c.window > 0 && Orderly(ops + [FlushOp(now)])
    ensures var (line, h) := LineRun(c, ops + [FlushOp(now)]);
      forall n :: n in line.held ==> n in h.arrivals && h.arrivals[n] > now - c.window
  {
    var all := ops + [FlushOp(now)];
    assert all[..|all| - 1] == ops;
    assert forall i :: 0 <= i < |ops| ==> all[i] == ops[i] && ops[i].now <= all[|ops|].now;
    EveryLineIsSound(c, ops, now);
    FlushSound(c, LineRun(c, ops).0, LineRun(c, ops).1, now, now);
  }

  // ---------------------------------------------------------------- exactly when releases ascend

  ghost predicate Rises(log: seq<Entry>, i: int, j: int)
    requires 0 <= i < |log| && 0 <= j < |log|
  {
    !log[i].late && !log[j].late && log[i].event.epoch == log[j].event.epoch ==>
      log[i].event.seqno < log[j].event.seqno
  }

  /** Releases that were not late ascend within each epoch. */
  ghost predicate Ascends(log: seq<Entry>) {
    forall i, j {:trigger Rises(log, i, j)} :: 0 <= i < j < |log| ==> Rises(log, i, j)
  }

  /** Every release of the epoch that was not late is below the number. */
  ghost predicate Below(log: seq<Entry>, epoch: nat, number: nat) {
    forall i :: 0 <= i < |log| && !log[i].late && log[i].event.epoch == epoch ==> log[i].event.seqno < number
  }

  ghost predicate OnlyAfterStart(line: Line, log: seq<Entry>) {
    line.started || forall i :: 0 <= i < |log| ==> log[i].late
  }

  ghost predicate Climbs(line: Line, log: seq<Entry>) {
    Ascends(log) && if line.started then Below(log, line.epoch, line.next) else OnlyAfterStart(line, log)
  }

  lemma AscendsShorter(log: seq<Entry>, more: seq<Entry>)
    requires Ascends(log + more)
    ensures Ascends(log)
  {
    forall i, j | 0 <= i < j < |log|
      ensures Rises(log, i, j)
    {
      assert Rises(log + more, i, j);
    }
  }

  lemma ForwardClimbs(log: seq<Entry>, stay: nat, epoch: nat, next: nat, out: seq<Event>, next': nat)
    requires Ascends(log) && Below(log, epoch, next) && OfEpoch(out, epoch) && Rising(out, next, next')
    ensures Ascends(log + Stamp(out, false, stay)) && Below(log + Stamp(out, false, stay), epoch, next')
  {
    RisingMeans(out, next, next');
    var more := log + Stamp(out, false, stay);
    forall i, j | 0 <= i < j < |more|
      ensures Rises(more, i, j)
    {
      assert j < |log| ==> Rises(log, i, j);
    }
  }

  lemma LateClimbs(log: seq<Entry>, stay: nat, e: Event, epoch: nat, next: nat)
    requires Ascends(log) && Below(log, epoch, next)
    ensures Ascends(log + Stamp([e], true, stay)) && Below(log + Stamp([e], true, stay), epoch, next)
  {
    var more := log + Stamp([e], true, stay);
    forall i, j | 0 <= i < j < |more|
      ensures Rises(more, i, j)
    {
      assert j < |log| ==> Rises(log, i, j);
    }
  }

  /** One more release keeps the order exactly when it is beyond its epoch. */
  lemma OneMoreClimbs(log: seq<Entry>, stay: nat, e: Event)
    requires Ascends(log)
    ensures Ascends(log + Stamp([e], false, stay)) <==> Below(log, e.epoch, e.seqno)
    ensures Below(log, e.epoch, e.seqno) ==> Below(log + Stamp([e], false, stay), e.epoch, e.seqno + 1)
  {
    var more := log + Stamp([e], false, stay);
    forall i, j | 0 <= i < j < |more|
      ensures Rises(more, i, j) <==> j < |log| || Rises(more, i, |log|)
    {
      assert j < |log| ==> Rises(log, i, j);
    }
    if Ascends(more) {
      forall i | 0 <= i < |log| && !log[i].late && log[i].event.epoch == e.epoch
        ensures log[i].event.seqno < e.seqno
      {
        assert Rises(more, i, |log|);
      }
    }
  }

  /** An event that opens a stay carries a number beyond everything of its epoch released in order. */
  ghost predicate OpensBeyond(c: Limits, line: Line, log: seq<Entry>, e: Event) {
    !Late(c, line, e) && Opens(line, e) ==> Below(log, e.epoch, e.seqno)
  }

  lemma OpeningClimbs(c: Limits, line: Line, h: History, e: Event, pre: seq<Event>)
    requires c.window > 0 && InLine(c, line) && Climbs(line, h.log) && Opens(line, e) && pre == Drain(line).1
    ensures Ascends(LogAfter(c, line, h, e, pre + [e])) <==> Below(h.log, e.epoch, e.seqno)
    ensures Below(h.log, e.epoch, e.seqno) ==> Below(LogAfter(c, line, h, e, pre + [e]), e.epoch, e.seqno + 1)
  {
    DrainMeaning(line);
    OpeningLog(c, h, line, e, pre);
    var log := h.log + Stamp(pre, false, h.stay);
    if line.started {
      ForwardClimbs(h.log, h.stay, line.epoch, line.next, pre, Drain(line).0.next);
    } else {
      assert pre == [] && log == h.log;
    }
    assert forall i :: |h.log| <= i < |log| ==> log[i].event.epoch == line.epoch;
    SameBelow(h.log, pre, h.stay, e);
    OneMoreClimbs(log, h.stay + 1, e);
  }

  /** Releases of another epoch have no say. */
  lemma SameBelow(log: seq<Entry>, pre: seq<Event>, stay: nat, e: Event)
    requires forall i :: 0 <= i < |pre| ==> pre[i].epoch != e.epoch
    ensures Below(log + Stamp(pre, false, stay), e.epoch, e.seqno) <==> Below(log, e.epoch, e.seqno)
  {
    var more := log + Stamp(pre, false, stay);
    assert forall i :: 0 <= i < |log| ==> more[i] == log[i];
  }

  lemma PresentClimbs(c: Limits, line: Line, h: History, e: Event, now: Time, clock: Time)
    requires c.window > 0 && c.maxHeld >= 1 && Sound(c, line, h, clock) && e.seqno < MAX_UINT64 && Climbs(line, h.log)
    ensures var line', log' := Offer(c, line, e, now).0, Presented(c, line, h, e, now).log;
      && (Ascends(log') <==> OpensBeyond(c, line, h.log, e))
      && (OpensBeyond(c, line, h.log, e) ==> Climbs(line', log'))
  {
    if Late(c, line, e) {
      LateClimbs(h.log, h.stay, e, line.epoch, line.next);
    } else if Opens(line, e) {
      OfferOpening(c, line, e, now);
      OpeningClimbs(c, line, h, e, Drain(line).1);
    } else {
      if e.seqno == line.next {
        OfferNext(c, line, e, now);
      } else {
        OfferAhead(c, line, e, now);
      }
      ForwardClimbs(h.log, h.stay, line.epoch, line.next, Offer(c, line, e, now).1, Offer(c, line, e, now).0.next);
    }
  }

  lemma FlushClimbs(c: Limits, line: Line, h: History, now: Time, clock: Time)
    requires c.maxHeld >= 1 && Sound(c, line, h, clock) && Climbs(line, h.log)
    ensures Climbs(Expire(c, line, now).0, Flushed(c, line, h, now).log)
  {
    ExpireMeaning(c, line, now);
    if line.started {
      ForwardClimbs(h.log, h.stay, line.epoch, line.next, Expire(c, line, now).1, Expire(c, line, now).0.next);
    } else {
      assert h.log + Stamp([], false, h.stay) == h.log;
    }
  }

  /** Along the run, every event that opens a stay does so beyond its epoch. */
  ghost predicate AlwaysOpensBeyond(c: Limits, ops: seq<LineOp>)
    decreases |ops|
  {
    ops == [] ||
      var before, op := ops[..|ops| - 1], ops[|ops| - 1];
      AlwaysOpensBeyond(c, before) &&
        (op.PresentOp? ==> OpensBeyond(c, LineRun(c, before).0, LineRun(c, before).1.log, op.e))
  }

  /** Logs only grow. */
  lemma LogGrows(c: Limits, line: Line, h: History, op: LineOp)
    ensures h.log <= HistoryAfter(c, line, h, op).log
  {
  }

  lemma StepClimbs(c: Limits, line: Line, h: History, op: LineOp)
    requires c.window > 0 && c.maxHeld >= 1 && Sound(c, line, h, op.now) && Climbs(line, h.log)
    requires op.PresentOp? ==> op.e.seqno < MAX_UINT64
    ensures var line', log' := AfterOp(c, line, op), HistoryAfter(c, line, h, op).log;
      && (Ascends(log') <==> (op.PresentOp? ==> OpensBeyond(c, line, h.log, op.e)))
      && (Ascends(log') ==> Climbs(line', log'))
  {
    if op.PresentOp? {
      PresentClimbs(c, line, h, op.e, op.now, op.now);
    } else {
      FlushClimbs(c, line, h, op.now, op.now);
    }
  }

  lemma {:induction false} ClimbsIff(c: Limits, ops: seq<LineOp>)
    requires c.window > 0 && c.maxHeld >= 1 && Orderly(ops)
    ensures Ascends(LineRun(c, ops).1.log) <==> AlwaysOpensBeyond(c, ops)
    ensures Ascends(LineRun(c, ops).1.log) ==> Climbs(LineRun(c, ops).0, LineRun(c, ops).1.log)
    decreases |ops|
  {
    if ops != [] {
      var before, op := ops[..|ops| - 1], ops[|ops| - 1];
      ClimbsIff(c, before);
      var (line, h) := LineRun(c, before);
      LogGrows(c, line, h, op);
      if Ascends(h.log) {
        EveryLineIsSound(c, before, op.now);
        StepClimbs(c, line, h, op);
      } else {
        NotAscendsLonger(h.log, HistoryAfter(c, line, h, op).log);
      }
    }
  }

  lemma NotAscendsLonger(log: seq<Entry>, longer: seq<Entry>)
    requires !Ascends(log) && log <= longer
    ensures !Ascends(longer)
  {
    assert longer == log + longer[|log|..];
    if Ascends(longer) {
      AscendsShorter(log, longer[|log|..]);
    }
  }

  /** Over every run, releases that were not late ascend within each epoch if and only if every event
      that found the line in another epoch carried a number beyond everything of its own epoch released
      in order before. */
  lemma ReleasesAscendIff(c: Limits, ops: seq<LineOp>)
    requires c.window > 0 && c.maxHeld >= 1 && Orderly(ops)
    ensures Ascends(LineRun(c, ops).1.log) <==> AlwaysOpensBeyond(c, ops)
  {
    ClimbsIff(c, ops);
  }

  // ---------------------------------------------------------------- epochs that never go back

  /** No event comes from an epoch before one already presented. */
  ghost predicate EpochsNeverGoBack(ops: seq<LineOp>) {
    forall i, j :: 0 <= i < j < |ops| && ops[i].PresentOp? && ops[j].PresentOp? ==> ops[i].e.epoch <= ops[j].e.epoch
  }

  /** Nothing released is from a later epoch. */
  ghost predicate UpTo(log: seq<Entry>, epoch: nat) { forall i :: 0 <= i < |log| ==> log[i].event.epoch <= epoch }

  /** The line is in the epoch of some event presented, and nothing released is from a later one. */
  ghost predicate Keeps(ops: seq<LineOp>, line: Line, log: seq<Entry>) {
    && (line.started ==> exists i :: 0 <= i < |ops| && ops[i].PresentOp? && ops[i].e.epoch == line.epoch)
    && (if line.started then UpTo(log, line.epoch) else log == [])
  }

  lemma StampUpTo(log: seq<Entry>, out: seq<Event>, late: bool, stay: nat, epoch: nat, epoch': nat)
    requires UpTo(log, epoch) && OfEpoch(out, epoch) && epoch <= epoch'
    ensures UpTo(log + Stamp(out, late, stay), epoch')
  {
  }

  lemma OpeningEpoch(c: Limits, line: Line, h: History, e: Event, now: Time)
    requires c.window > 0 && c.maxHeld >= 1 && InLine(c, line) && e.seqno < MAX_UINT64 && Opens(line, e)
    requires if line.started then UpTo(h.log, line.epoch) && line.epoch <= e.epoch else h.log == []
    ensures var line', log' := Offer(c, line, e, now).0, Presented(c, line, h, e, now).log;
      line'.started && line'.epoch == e.epoch && UpTo(log', e.epoch)
  {
    OfferOpening(c, line, e, now);
    DrainMeaning(line);
    var pre := Drain(line).1;
    OpeningLog(c, h, line, e, pre);
    if line.started {
      StampUpTo(h.log, pre, false, h.stay, line.epoch, e.epoch);
    }
    StampUpTo(h.log + Stamp(pre, false, h.stay), [e], false, h.stay + 1, e.epoch, e.epoch);
  }

  lemma SameEpoch(c: Limits, line: Line, h: History, e: Event, now: Time)
    requires c.window > 0 && c.maxHeld >= 1 && InLine(c, line) && e.seqno < MAX_UINT64 && !Opens(line, e)
    requires UpTo(h.log, line.epoch)
    ensures var line', log' := Offer(c, line, e, now).0, Presented(c, line, h, e, now).log;
      line'.started && line'.epoch == e.epoch && UpTo(log', e.epoch)
  {
    if Late(c, line, e) {
      StampUpTo(h.log, [e], true, h.stay, line.epoch, line.epoch);
    } else {
      if e.seqno == line.next {
        OfferNext(c, line, e, now);
      } else {
        OfferAhead(c, line, e, now);
      }
      StampUpTo(h.log, Offer(c, line, e, now).1, false, h.stay, line.epoch, line.epoch);
    }
  }

  lemma FlushEpoch(c: Limits, line: Line, h: History, now: Time)
    requires c.maxHeld >= 1 && InLine(c, line) && (if line.started then UpTo(h.log, line.epoch) else h.log == [])
    ensures var line', log' := Expire(c, line, now).0, Flushed(c, line, h, now).log;
      && line'.started == line.started && line'.epoch == line.epoch
      && (if line.started then UpTo(log', line.epoch) else log' == [])
  {
    ExpireMeaning(c, line, now);
    if line.started {
      StampUpTo(h.log, Expire(c, line, now).1, false, h.stay, line.epoch, line.epoch);
    }
  }

  /** A step keeps the line in its epoch, or moves it to the event's. */
  lemma StepKeeps(c: Limits, ops: seq<LineOp>, before: seq<LineOp>, op: LineOp, line: Line, h: History)
    requires c.window > 0 && c.maxHeld >= 1 && Sound(c, line, h, op.now) && (op.PresentOp? ==> op.e.seqno < MAX_UINT64)
    requires EpochsNeverGoBack(ops) && ops == before + [op] && Keeps(before, line, h.log)
    ensures Keeps(ops, AfterOp(c, line, op), HistoryAfter(c, line, h, op).log)
    ensures op.PresentOp? ==> OpensBeyond(c, line, h.log, op.e)
  {
    assert ops[|before|] == op;
    if line.started {
      var i :| 0 <= i < |before| && before[i].PresentOp? && before[i].e.epoch == line.epoch;
      assert ops[i] == before[i];
    }
    if op.FlushOp? {
      FlushEpoch(c, line, h, op.now);
    } else if Opens(line, op.e) {
      OpeningEpoch(c, line, h, op.e, op.now);
    } else {
      SameEpoch(c, line, h, op.e, op.now);
    }
  }

  lemma {:induction false} NeverBackOpensBeyond(c: Limits, ops: seq<LineOp>)
    requires c.window > 0 && c.maxHeld >= 1 && Orderly(ops) && EpochsNeverGoBack(ops)
    ensures AlwaysOpensBeyond(c, ops) && Keeps(ops, LineRun(c, ops).0, LineRun(c, ops).1.log)
    decreases |ops|
  {
    if ops != [] {
      var before, op := ops[..|ops| - 1], ops[|ops| - 1];
      NeverBackOpensBeyond(c, before);
      EveryLineIsSound(c, before, op.now);
      StepKeeps(c, ops, before, op, LineRun(c, before).0, LineRun(c, before).1);
    }
  }

  /** When no straggler from an older epoch arrives, releases that were not late strictly ascend
      within each epoch. */
  lemma ReleasesAscendWithinEpoch(c: Limits, ops: seq<LineOp>)
    requires c.window > 0 && c.maxHeld >= 1 && Orderly(ops) && EpochsNeverGoBack(ops)
    ensures Ascends(LineRun(c, ops).1.log)
  {
    NeverBackOpensBeyond(c, ops);
    ReleasesAscendIff(c, ops);
  }

  /** A straggler from an older epoch defeats it: the line follows the straggler back, so a repeat
      of a number already released opens a stay again and is released as if it were new. */
  lemma StragglerRepeatsRelease(c: Limits, e: Event, straggler: Event, now: Time)
    requires c.window > 0 && c.maxHeld >= 1 && e.seqno < MAX_UINT64 && straggler.seqno < MAX_UINT64
    requires straggler.epoch < e.epoch
    ensures LineRun(c, [PresentOp(e, now), PresentOp(straggler, now), PresentOp(e, now)]).1.log ==
      [Entry(e, false, 1), Entry(straggler, false, 2), Entry(e, false, 3)]
  {
    var l0, h0 := NewLine(), NewHistory();
    var (l1, h1) := Opened(c, l0, h0, e, now);
    var (l2, h2) := Opened(c, l1, h1, straggler, now);
    var (l3, h3) := Opened(c, l2, h2, e, now);
    var one := [PresentOp(e, now)];
    var two := one + [PresentOp(straggler, now)];
    RunSnoc(c, [], PresentOp(e, now));
    assert [] + one == one && LineRun(c, one) == (l1, h1);
    RunSnoc(c, one, PresentOp(straggler, now));
    assert LineRun(c, two) == (l2, h2);
    RunSnoc(c, two, PresentOp(e, now));
    assert two + one == [PresentOp(e, now), PresentOp(straggler, now), PresentOp(e, now)];
  }

  lemma RunSnoc(c: Limits, ops: seq<LineOp>, op: LineOp)
    ensures LineRun(c, ops + [op]) ==
      (AfterOp(c, LineRun(c, ops).0, op), HistoryAfter(c, LineRun(c, ops).0, LineRun(c, ops).1, op))
  {
    assert (ops + [op])[..|ops|] == ops;
  }

  /** A line with nothing held opens at the event. */
  ghost function Opened(c: Limits, line: Line, h: History, e: Event, now: Time): (r: (Line, History))
    requires c.window > 0 && line.held == map[] && Opens(line, e)
    ensures r.0 == line.(started := true, epoch := e.epoch, next := Succ(e.seqno))
    ensures r.1.log == h.log + [Entry(e, false, h.stay + 1)] && r.1.stay == h.stay + 1
    ensures r == (AfterOp(c, line, PresentOp(e, now)), HistoryAfter(c, line, h, PresentOp(e, now)))
  {
    assert [] + [e] == [e];
    OpeningLog(c, h, line, e, []);
    (AfterOp(c, line, PresentOp(e, now)), HistoryAfter(c, line, h, PresentOp(e, now)))
  }

  // ---------------------------------------------------------------- the top of the sequence space

  /** Every event waits under its own number, beyond the next expected. Numbers up to the top. */
  ghost predicate Numbered(line: Line) {
    forall n :: n in line.held ==> line.next < n <= MAX_UINT64 && line.held[n].seqno == n
  }

  lemma {:induction false} ConsecutiveSuccessor(line: Line)
    requires forall n :: n in line.held ==> line.held[n].seqno == n
    ensures var (rest, out) := Consecutive(line);
      if out == [] then rest == line else rest.next == Succ(out[|out| - 1].seqno)
    decreases |line.held|
  {
    if line.next in line.held {
      Shrinks(line.held, line.next);
      ConsecutiveSuccessor(line.(next := Succ(line.next), held := line.held - {line.next}));
    }
  }

  lemma {:induction false} AscendingHeld(held: Waiting)
    ensures forall e :: e in Ascending(held) ==> e in Those(held)
    ensures Ascending(held) == [] <==> held == map[]
    decreases |held|
  {
    if held != map[] {
      var n := First(held);
      Shrinks(held, n);
      AscendingHeld(held - {n});
      assert forall m :: m in held - {n} ==> held[m] == (held - {n})[m];
    }
  }

  lemma DrainSuccessor(line: Line)
    requires Numbered(line) && line.held != map[]
    ensures var (rest, out) := Drain(line); out != [] && rest.next == Succ(out[|out| - 1].seqno)
  {
    AscendingHeld(line.held);
    var out := Ascending(line.held);
    assert out[|out| - 1] in out && out[|out| - 1] in Those(line.held);
  }

  /** After everything an offer or a flush releases in order, the expectation is the successor of the
      last number released; so it moves past that number exactly when the number is below the top. */
  lemma ExpectationFollows(c: Limits, line: Line, op: LineOp)
    requires c.window > 0 && Numbered(line) && (op.PresentOp? ==> !Late(c, line, op.e) && op.e.seqno <= MAX_UINT64)
    ensures var (line', out) := if op.PresentOp? then Offer(c, line, op.e, op.now) else Expire(c, line, op.now);
      out != [] ==>
        && line'.next == Succ(out[|out| - 1].seqno)
        && (line'.next > out[|out| - 1].seqno <==> out[|out| - 1].seqno != MAX_UINT64)
  {
    if op.FlushOp? {
      if line.held != map[] {
        DrainSuccessor(line);
      }
    } else if !Opens(line, op.e) {
      if op.e.seqno == line.next {
        ConsecutiveSuccessor(line.(next := Succ(line.next)));
      } else {
        HoldSuccessor(c, line, op.e, op.now);
      }
    }
  }

  lemma HoldSuccessor(c: Limits, line: Line, e: Event, now: Time)
    requires Numbered(line) && line.next < e.seqno <= MAX_UINT64
    ensures var (line', out) := Hold(c, line, e, now); out != [] ==> line'.next == Succ(out[|out| - 1].seqno)
  {
    var held := if e.seqno in line.held then line
      else line.(held := line.held[e.seqno := e], oldestAt := if line.held == map[] then now else line.oldestAt);
    assert Numbered(held);
    if held.held != map[] {
      DrainSuccessor(held);
    }
  }

  /** At the top it wraps: a repeat of the top number then looks far ahead and is held back, waiting
      for number zero. */
  lemma TopNumberIsHeldAgain(c: Limits, e: Event, now: Time)
    requires c.window > 0 && c.maxHeld >= 2 && e.seqno == MAX_UINT64
    ensures var (line, out) := Offer(c, NewLine(), e, now);
      out == [e] && Offer(c, line, e, now) == (line.(held := map[e.seqno := e], oldestAt := now), [])
  {
    var line := Offer(c, NewLine(), e, now).0;
    assert line.held[e.seqno := e] == map[e.seqno := e];
    assert |map[e.seqno := e]| == 1;
  }

  // ---------------------------------------------------------------- the implementation

  ghost predicate StrictlyUp(s: seq<nat>) {
    forall i, j :: 0 <= i < j < |s| ==> s[i] < s[j]
  }

  function At(held: Waiting, s: seq<nat>): seq<Event>
    requires forall i :: 0 <= i < |s| ==> s[i] in held
  {
    seq(|s|, i requires 0 <= i < |s| => held[s[i]])
  }

  ghost predicate Lists(held: Waiting, s: seq<nat>) {
    StrictlyUp(s) && forall n :: n in s <==> n in held
  }

  lemma ListsFirst(held: Waiting, s: seq<nat>)
    requires Lists(held, s) && s != []
    ensures s[0] in held && s[0] == First(held)
  {
    assert s[0] in s && First(held) in s;
  }

  lemma ListsRest(held: Waiting, s: seq<nat>)
    requires Lists(held, s) && s != []
    ensures Lists(held - {s[0]}, s[1..])
  {
    forall n
      ensures n in s[1..] <==> n in held - {s[0]}
    {
      assert n in s <==> n == s[0] || n in s[1..];
    }
  }

  lemma ListsAll(held: Waiting, s: seq<nat>)
    requires Lists(held, s)
    ensures forall i :: 0 <= i < |s| ==> s[i] in held
  {
    assert forall i :: 0 <= i < |s| ==> s[i] in s;
  }

  lemma ReadsFirst(held: Waiting, s: seq<nat>, rest: Waiting)
    requires s != [] && (forall i :: 0 <= i < |s| ==> s[i] in held) && StrictlyUp(s) && rest == held - {s[0]}
    ensures (forall i :: 0 <= i < |s[1..]| ==> s[1..][i] in rest) && At(held, s) == [held[s[0]]] + At(rest, s[1..])
  {
  }

  /** The ascending list of numbers reads off everything held in order. */
  lemma {:induction false} AscendingIs(held: Waiting, s: seq<nat>)
    requires Lists(held, s)
    ensures (forall i :: 0 <= i < |s| ==> s[i] in held) && Ascending(held) == At(held, s)
    decreases |s|
  {
    ListsAll(held, s);
    if s == [] {
      assert held == map[];
    } else {
      ListsFirst(held, s);
      ListsRest(held, s);
      AscendingIs(held - {s[0]}, s[1..]);
      ReadsFirst(held, s, held - {s[0]});
    }
  }

  /** The position of the first number above n. */
  method Position(s: seq<nat>, n: nat) returns (i: nat)
    requires StrictlyUp(s) && n !in s
    ensures i <= |s| && (forall j :: 0 <= j < i ==> s[j] < n) && (forall j :: i <= j < |s| ==> n < s[j])
  {
    i := 0;
    while i < |s| && s[i] < n
      invariant i <= |s| && forall j :: 0 <= j < i ==> s[j] < n
    {
      i := i + 1;
    }
  }

  /** Collects the waiting numbers and sorts them. */
  method SortedNumbers(held: Waiting) returns (s: seq<nat>)
    ensures Lists(held, s)
  {
    s := [];
    var left := held.Keys;
    while left != {}
      invariant StrictlyUp(s) && left <= held.Keys
      invariant forall n :: n in s <==> n in held && n !in left
      decreases |left|
    {
      var n :| n in left;
      var i := Position(s, n);
      ghost var before := s;
      s := s[..i] + [n] + s[i..];
      assert s[i] == n;
      assert forall m :: m in s <==> m in before || m == n by {
        assert before == before[..i] + before[i..];
      }
      left := left - {n};
    }
  }

  method ReadOff(held: Waiting, s: seq<nat>) returns (out: seq<Event>)
    requires forall i :: 0 <= i < |s| ==> s[i] in held
    ensures out == At(held, s)
  {
    out := [];
    for i := 0 to |s|
      invariant out == At(held, s[..i])
    {
      out := out + [held[s[i]]];
    }
    assert s[..|s|] == s;
  }

  method DrainLine(line: Line) returns (rest: Line, out: seq<Event>)
    ensures (rest, out) == Drain(line)
  {
    rest, out := line, [];
    if |line.held| > 0 {
      var s := SortedNumbers(line.held);
      AscendingIs(line.held, s);
      out := ReadOff(line.held, s);
      var last := out[|out| - 1].seqno;
      rest := line.(held := map[], next := if last >= line.next then Succ(last) else line.next);
    }
  }

  method ReleaseConsecutive(line: Line, first: seq<Event>) returns (rest: Line, out: seq<Event>)
    ensures rest == Consecutive(line).0 && out == first + Consecutive(line).1
  {
    rest, out := line, first;
    while rest.next in rest.held
      invariant Consecutive(rest).0 == Consecutive(line).0
      invariant out + Consecutive(rest).1 == first + Consecutive(line).1
      decreases |rest.held|
    {
      Shrinks(rest.held, rest.next);
      out := out + [rest.held[rest.next]];
      rest := rest.(next := Succ(rest.next), held := rest.held - {rest.next});
    }
  }

  method OfferLine(c: Limits, line: Line, e: Event, now: Time) returns (line': Line, out: seq<Event>)
    requires c.window > 0
    ensures (line', out) == Offer(c, line, e, now)
  {
    line', out := line, [e];
    if !line.started {
      line' := line.(started := true, epoch := e.epoch, next := Succ(e.seqno));
    } else if e.epoch != line.epoch {
      line', out := DrainLine(line);
      line', out := line'.(epoch := e.epoch, next := Succ(e.seqno)), out + [e];
    } else if e.seqno == line.next {
      line', out := ReleaseConsecutive(line.(next := Succ(line.next)), [e]);
    } else if e.seqno > line.next {
      line', out := HoldInLine(c, line, e, now);
    }
  }

  method HoldInLine(c: Limits, line: Line, e: Event, now: Time) returns (line': Line, out: seq<Event>)
    ensures (line', out) == Hold(c, line, e, now)
  {
    line', out := line, [];
    if e.seqno !in line.held {
      if |line.held| == 0 {
        line' := line'.(oldestAt := now);
      }
      line' := line'.(held := line.held[e.seqno := e]);
    }
    if |line'.held| >= c.maxHeld {
      line', out := DrainLine(line');
    }
  }

  method ExpireLine(c: Limits, line: Line, now: Time) returns (rest: Line, out: seq<Event>)
    requires c.window > 0
    ensures (rest, out) == Expire(c, line, now)
  {
    rest, out := line, [];
    if |line.held| > 0 && now - line.oldestAt >= c.window {
      rest, out := DrainLine(line);
    }
  }

  // ---------------------------------------------------------------- the buffer

  type Lines = map<string, Line>

  ghost predicate LineSound(c: Limits, pubs: Lines, books: map<string, History>, clock: Time, p: string)
    requires p in pubs && p in books
  {
    Sound(c, pubs[p], books[p], clock)
  }

  ghost predicate AllSound(c: Limits, pubs: Lines, books: map<string, History>, clock: Time) {
    && pubs.Keys == books.Keys
    && (forall p {:trigger LineSound(c, pubs, books, clock, p)} :: p in pubs ==> LineSound(c, pubs, books, clock, p))
  }

  lemma ClockMoves(c: Limits, line: Line, h: History, clock: Time, now: Time)
    requires Sound(c, line, h, clock) && clock <= now
    ensures Sound(c, line, h, now)
  {
  }

  lemma OneLineChanges(c: Limits, pubs: Lines, books: map<string, History>, clock: Time, p: string, line: Line,
      h: History, now: Time)
    requires AllSound(c, pubs, books, clock) && clock <= now && Sound(c, line, h, now)
    ensures AllSound(c, pubs[p := line], books[p := h], now)
  {
    var pubs', books' := pubs[p := line], books[p := h];
    forall q | q in pubs'
      ensures LineSound(c, pubs', books', now, q)
    {
      if q != p {
        assert LineSound(c, pubs, books, clock, q);
        ClockMoves(c, pubs[q], books[q], clock, now);
      }
    }
  }

  /** What a flush releases, publisher by publisher in the given order. */
  ghost function Joined(c: Limits, pubs: Lines, order: seq<string>, now: Time): seq<Event>
    requires forall i :: 0 <= i < |order| ==> order[i] in pubs
    decreases |order|
  {
    if order == [] then []
    else Joined(c, pubs, order[..|order| - 1], now) + Expire(c, pubs[order[|order| - 1]], now).1
  }

  ghost function FlushedLines(c: Limits, pubs: Lines, done: set<string>, now: Time): Lines {
    map p | p in pubs :: if p in done then Expire(c, pubs[p], now).0 else pubs[p]
  }

  lemma FlushOneMore(c: Limits, pubs: Lines, done: set<string>, p: string, now: Time)
    requires p in pubs && p !in done
    ensures FlushedLines(c, pubs, done, now)[p] == pubs[p]
    ensures FlushedLines(c, pubs, done + {p}, now) == FlushedLines(c, pubs, done, now)[p := Expire(c, pubs[p], now).0]
  {
  }

  lemma VisitOneMore(c: Limits, pubs: Lines, order: seq<string>, p: string, now: Time)
    requires p in pubs && p !in order && Distinct(order) && forall q :: q in order ==> q in pubs
    ensures Distinct(order + [p]) && (forall q :: q in order + [p] <==> q in order || q == p)
    ensures Joined(c, pubs, order + [p], now) == Joined(c, pubs, order, now) + Expire(c, pubs[p], now).1
  {
    assert (order + [p])[..|order|] == order;
  }

  /** Publishers are visited in no particular order, each exactly once. */
  method ExpireLines(c: Limits, pubs: Lines, now: Time)
      returns (pubs': Lines, out: seq<Event>, ghost order: seq<string>)
    requires c.window > 0
    ensures pubs' == FlushedLines(c, pubs, pubs.Keys, now)
    ensures Distinct(order) && (forall p :: p in order <==> p in pubs) && out == Joined(c, pubs, order, now)
  {
    pubs', out, order := pubs, [], [];
    var left := pubs.Keys;
    while left != {}
      invariant left <= pubs.Keys && pubs' == FlushedLines(c, pubs, pubs.Keys - left, now)
      invariant Distinct(order) && (forall p :: p in order <==> p in pubs && p !in left)
      invariant out == Joined(c, pubs, order, now)
      decreases |left|
    {
      var p :| p in left;
      FlushOneMore(c, pubs, pubs.Keys - left, p, now);
      VisitOneMore(c, pubs, order, p, now);
      assert pubs.Keys - (left - {p}) == pubs.Keys - left + {p};
      var rest, ready := ExpireLine(c, pubs'[p], now);
      pubs', out, order := pubs'[p := rest], out + ready, order + [p];
      left := left - {p};
    }
    assert pubs.Keys - left == pubs.Keys;
  }

  ghost function FlushedBooks(c: Limits, pubs: Lines, books: map<string, History>, now: Time): map<string, History>
    requires pubs.Keys == books.Keys
  {
    map p | p in books :: Flushed(c, pubs[p], books[p], now)
  }

  lemma FlushAllSound(c: Limits, pubs: Lines, books: map<string, History>, clock: Time, now: Time)
    requires c.maxHeld >= 1 && AllSound(c, pubs, books, clock) && clock <= now
    ensures AllSound(c, FlushedLines(c, pubs, pubs.Keys, now), FlushedBooks(c, pubs, books, now), now)
  {
    var pubs', books' := FlushedLines(c, pubs, pubs.Keys, now), FlushedBooks(c, pubs, books, now);
    forall p | p in pubs'
      ensures LineSound(c, pubs', books', now, p)
    {
      assert LineSound(c, pubs, books, clock, p);
      FlushSound(c, pubs[p], books[p], now, clock);
    }
  }

  class ReorderBuffer {
    const limits: Limits
    var pubs: Lines
    ghost var books: map<string, History>
    ghost var clock: Time
    /** The top number has been presented, after which the expectation may have wrapped. */
    ghost var topped: bool

    ghost predicate Valid()
      reads this
    {
      limits.maxHeld >= 1 && pubs.Keys == books.Keys && (!topped ==> AllSound(limits, pubs, books, clock))
    }

    constructor (window: Time, maxHeld: int)
      ensures Valid() && pubs == map[] && books == map[] && !topped
      ensures limits == Limits(window, if maxHeld <= 0 then 1024 else maxHeld)
    {
      limits := Limits(window, if maxHeld <= 0 then 1024 else maxHeld);
      pubs, books, topped := map[], map[], false;
    }

    /** Presents an event; returns everything now ready to apply. A disabled buffer passes it on. */
    method Present(e: Event, now: Time) returns (out: seq<Event>)
      requires Valid() && clock <= now && e.seqno <= MAX_UINT64
      modifies this
      ensures Valid() && topped == (old(topped) || (limits.window > 0 && e.seqno == MAX_UINT64))
      ensures limits.window <= 0 ==> out == [e] && pubs == old(pubs) && books == old(books)
      ensures limits.window > 0 ==>
        var line := if e.publisher in old(pubs) then old(pubs)[e.publisher] else NewLine();
        var book := if e.publisher in old(pubs) then old(books)[e.publisher] else NewHistory();
        && out == Offer(limits, line, e, now).1 && clock == now
        && pubs == old(pubs)[e.publisher := Offer(limits, line, e, now).0]
        && books == old(books)[e.publisher := Presented(limits, line, book, e, now)]
    {
      if limits.window <= 0 {
        return [e];
      }
      var line := if e.publisher in pubs then pubs[e.publisher] else NewLine();
      ghost var book := if e.publisher in pubs then books[e.publisher] else NewHistory();
      topped := topped || e.seqno == MAX_UINT64;
      if !topped {
        if e.publisher in pubs {
          assert LineSound(limits, pubs, books, clock, e.publisher);
        } else {
          EmptyBag(map[]);
        }
        PresentSound(limits, line, book, e, now, clock);
        OneLineChanges(limits, pubs, books, clock, e.publisher, Offer(limits, line, e, now).0,
          Presented(limits, line, book, e, now), now);
      }
      line, out := OfferLine(limits, line, e, now);
      pubs := pubs[e.publisher := line];
      books := books[e.publisher :=
        Presented(limits, if e.publisher in old(pubs) then old(pubs)[e.publisher] else NewLine(), book, e, now)];
      clock := now;
    }

    /** Releases every line whose wait has run out. */
    method ExpireAll(now: Time) returns (out: seq<Event>, ghost order: seq<string>)
      requires Valid() && clock <= now
      modifies this
      ensures Valid() && topped == old(topped)
      ensures limits.window <= 0 ==> out == [] && pubs == old(pubs) && books == old(books)
      ensures limits.window > 0 ==>
        pubs == FlushedLines(limits, old(pubs), old(pubs).Keys, now) &&
        books == FlushedBooks(limits, old(pubs), old(books), now)
      ensures limits.window > 0 ==>
        Distinct(order) && (forall p :: p in order <==> p in old(pubs)) && out == Joined(limits, old(pubs), order, now)
    {
      out, order := [], [];
      if limits.window > 0 {
        if !topped {
          FlushAllSound(limits, pubs, books, clock, now);
        }
        books := FlushedBooks(limits, pubs, books, now);
        pubs, out, order := ExpireLines(limits, pubs, now);
        clock := now;
      }
    }
  }
}
