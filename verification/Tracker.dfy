/** Per-publisher sequence integrity (pkg/seqtrack/seqtrack.go).

    Every publisher carries a ledger of what was really accepted since its current baseline, and
    what a snapshot forgave. The tracker never sees it; the theorems compare its trust with it. */
module Trackers {
  import opened Events
  import opened GapSets

  datatype Verdict = Accept | AcceptWithGap | AcceptLateFill | AcceptAfterRestart | AcceptFirstSeen | DropDuplicate |
    DropStaleEpoch
  {
    predicate Accepted() { !DropDuplicate? && !DropStaleEpoch? }
  }

  datatype Config = Config(maxPublishers: nat, maxIntervals: nat, restartDelta: nat, restartCeiling: nat)

  datatype Pub = Pub(epoch: nat, incarnation: nat, hwm: nat, gaps: Gaps, lastSeen: Time, events: nat, restarts: nat)

  /** Successor in the 64-bit sequence space. */
  function Succ(x: nat): nat { if x == MAX_UINT64 then 0 else x + 1 }

  /** A step back that is both far below the high-water mark and close to zero is a restart. */
  predicate ImplicitRestart(c: Config, hwm: nat, x: nat) {
    hwm > x && hwm - x > c.restartDelta && x < c.restartCeiling
  }

  /** The verdict on sequence number x within the current epoch. */
  ghost function Classify(c: Config, st: Pub, x: nat): Verdict {
    if st.hwm != MAX_UINT64 && x == st.hwm + 1 then Accept
    else if x > Succ(st.hwm) then AcceptWithGap
    else if ImplicitRestart(c, st.hwm, x) then AcceptAfterRestart
    else if Covers(st.gaps.intervals, x) then AcceptLateFill
    else DropDuplicate
  }

  ghost function Judge(c: Config, st: Pub, epoch: nat, x: nat): Verdict {
    if epoch > st.epoch then AcceptAfterRestart
    else if epoch < st.epoch then DropStaleEpoch
    else Classify(c, st, x)
  }

  const NO_GAPS := Gaps([], false)

  /** The publisher after one event. */
  ghost function Observed(c: Config, st: Pub, epoch: nat, x: nat, now: Time): Pub
    requires c.maxIntervals >= 1
  {
    var s := st.(lastSeen := now);
    match Judge(c, st, epoch, x)
    case AcceptAfterRestart =>
      if epoch > st.epoch then
        s.(epoch := epoch, hwm := x, gaps := NO_GAPS, restarts := s.restarts + 1, events := s.events + 1)
      else s.(hwm := x, gaps := NO_GAPS, incarnation := s.incarnation + 1, restarts := s.restarts + 1,
        events := s.events + 1)
    case Accept => s.(hwm := x, events := s.events + 1)
    case AcceptWithGap => s.(gaps := Add(s.gaps, c.maxIntervals, Succ(st.hwm), x - 1), hwm := x, events := s.events + 1)
    case AcceptLateFill => s.(gaps := Fill(s.gaps, c.maxIntervals, x), events := s.events + 1)
    case _ => s
  }

  function NewPub(epoch: nat, x: nat, now: Time): Pub { Pub(epoch, 0, x, NO_GAPS, now, 1, 0) }

  /** Suspect while any number is missing, or once the set no longer knows exactly which. */
  predicate Trusted(st: Pub) {
    Count(st.gaps.intervals) == 0 && !st.gaps.truncated
  }

  // ---------------------------------------------------------------- the ledger

  /** Since its baseline: the numbers accepted, and the numbers a snapshot made irrelevant. */
  datatype Ledger = Ledger(base: nat, accepted: set<nat>, forgiven: set<int>)

  ghost function Booked(l: Ledger, v: Verdict, x: nat): Ledger {
    match v
    case AcceptFirstSeen => Ledger(x, {x}, {})
    case AcceptAfterRestart => Ledger(x, {x}, {})
    case DropDuplicate => l
    case DropStaleEpoch => l
    case _ => l.(accepted := l.accepted + {x})
  }

  /** Every number from the baseline to the high-water mark was accepted, forgiven or is recorded
      as missing. */
  ghost predicate Accounted(hwm: nat, s: seq<Interval>, l: Ledger) {
    forall x: int {:trigger Covers(s, x)} :: l.base <= x <= hwm ==> x in l.accepted || x in l.forgiven || Covers(s, x)
  }

  /** Nothing accepted is also recorded as missing. */
  ghost predicate Exact(s: seq<Interval>, l: Ledger) {
    forall x: int {:trigger Covers(s, x)} :: x in l.accepted ==> !Covers(s, x)
  }

  /** Everything is accounted for; what is missing lies strictly between the baseline and the
      high-water mark; and until the cap has merged, what is recorded as missing is missing. */
  ghost predicate Honest(max: nat, hwm: nat, gaps: Gaps, l: Ledger) {
    && l.base <= hwm < MAX_UINT64
    && Canonical(gaps.intervals) && |gaps.intervals| <= max
    && Within(gaps.intervals, l.base + 1, hwm - 1)
    && Accounted(hwm, gaps.intervals, l)
    && (forall x :: x in l.accepted ==> l.base <= x <= hwm)
    && (!gaps.truncated ==> Exact(gaps.intervals, l))
  }

  lemma StartHonest(max: nat, x: nat)
    requires x < MAX_UINT64
    ensures Honest(max, x, NO_GAPS, Ledger(x, {x}, {}))
  {
  }

  lemma NextHonest(max: nat, hwm: nat, gaps: Gaps, l: Ledger)
    requires Honest(max, hwm, gaps, l) && hwm + 1 < MAX_UINT64
    ensures Honest(max, hwm + 1, gaps, l.(accepted := l.accepted + {hwm + 1})) && hwm + 1 !in l.accepted
  {
    assert !Covers(gaps.intervals, hwm + 1);
  }

  lemma AddAccounted(hwm: nat, s: seq<Interval>, t: seq<Interval>, l: Ledger, x: nat)
    requires Accounted(hwm, s, l) && hwm + 1 < x
    requires forall y :: Covers(s, y) || hwm + 1 <= y <= x - 1 ==> Covers(t, y)
    ensures Accounted(x, t, l.(accepted := l.accepted + {x}))
  {
    forall y | l.base <= y <= x
      ensures y in l.accepted + {x} || y in l.forgiven || Covers(t, y)
    {
      assert y <= hwm ==> y in l.accepted || y in l.forgiven || Covers(s, y);
    }
  }

  lemma AddExact(hwm: nat, s: seq<Interval>, t: seq<Interval>, l: Ledger, x: nat)
    requires Exact(s, l) && hwm + 1 < x && (forall y :: y in l.accepted ==> y <= hwm) && !Covers(t, x)
    requires forall y :: Covers(t, y) ==> Covers(s, y) || hwm + 1 <= y <= x - 1
    ensures Exact(t, l.(accepted := l.accepted + {x}))
  {
  }

  lemma OutsideUncovered(s: seq<Interval>, a: int, b: int, x: int)
    requires Within(s, a, b) && !(a <= x <= b)
    ensures !Covers(s, x)
  {
  }

  lemma JumpHonest(max: nat, hwm: nat, gaps: Gaps, l: Ledger, x: nat, r: Gaps)
    requires Honest(max, hwm, gaps, l) && hwm + 1 < x < MAX_UINT64
    requires Grown(gaps, max, hwm + 1, x - 1, r) && Within(r.intervals, l.base + 1, x - 1)
    ensures Honest(max, x, r, l.(accepted := l.accepted + {x}))
  {
    OutsideUncovered(r.intervals, l.base + 1, x - 1, x);
    AddAccounted(hwm, gaps.intervals, r.intervals, l, x);
    if !r.truncated {
      AddExact(hwm, gaps.intervals, r.intervals, l, x);
    }
  }

  lemma JumpWithin(max: nat, hwm: nat, s: seq<Interval>, base: nat, x: nat, truncated: bool)
    requires max >= 1 && Canonical(s) && Within(s, base + 1, hwm - 1) && base <= hwm && hwm + 1 < x < MAX_UINT64
    ensures Within(Add(Gaps(s, truncated), max, hwm + 1, x - 1).intervals, base + 1, x - 1)
  {
    StretchWithin(s, base + 1, hwm - 1, hwm + 1);
    AddWithin(Gaps(s, truncated), max, hwm + 1, x - 1, base + 1, x - 1);
  }

  lemma StretchWithin(s: seq<Interval>, a: int, b: int, c: int)
    requires Within(s, a, b) && b <= c
    ensures Within(s, a, c)
  {
  }

  lemma JumpGrown(max: nat, hwm: nat, s: seq<Interval>, x: nat, truncated: bool)
    requires max >= 1 && Canonical(s) && hwm + 1 < x < MAX_UINT64
    ensures Grown(Gaps(s, truncated), max, hwm + 1, x - 1, Add(Gaps(s, truncated), max, hwm + 1, x - 1))
  {
    AddMeaning(Gaps(s, truncated), max, hwm + 1, x - 1);
  }

  lemma GapHonest(max: nat, hwm: nat, gaps: Gaps, l: Ledger, x: nat)
    requires max >= 1 && Honest(max, hwm, gaps, l) && hwm + 1 < x < MAX_UINT64
    ensures Honest(max, x, Add(gaps, max, hwm + 1, x - 1), l.(accepted := l.accepted + {x}))
  {
    assert gaps == Gaps(gaps.intervals, gaps.truncated);
    JumpWithin(max, hwm, gaps.intervals, l.base, x, gaps.truncated);
    JumpGrown(max, hwm, gaps.intervals, x, gaps.truncated);
    JumpHonest(max, hwm, gaps, l, x, Add(gaps, max, hwm + 1, x - 1));
  }

  lemma FillAccounted(hwm: nat, s: seq<Interval>, t: seq<Interval>, l: Ledger, x: nat)
    requires Accounted(hwm, s, l) && forall y :: Covers(s, y) && y != x ==> Covers(t, y)
    ensures Accounted(hwm, t, l.(accepted := l.accepted + {x}))
  {
    forall y | l.base <= y <= hwm
      ensures y in l.accepted + {x} || y in l.forgiven || Covers(t, y)
    {
      assert y in l.accepted || y in l.forgiven || Covers(s, y);
    }
  }

  lemma FillHonest(max: nat, hwm: nat, gaps: Gaps, l: Ledger, x: nat)
    requires max >= 1 && Honest(max, hwm, gaps, l) && Covers(gaps.intervals, x)
    ensures Honest(max, hwm, Fill(gaps, max, x), l.(accepted := l.accepted + {x}))
    ensures !gaps.truncated ==> x !in l.accepted
  {
    FillMeaning(gaps, max, x);
    FillWithin(gaps, max, x, l.base + 1, hwm - 1);
    FillAccounted(hwm, gaps.intervals, Fill(gaps, max, x).intervals, l, x);
  }

  /** The books after an event whose number is new to this incarnation. */
  lemma ClassifyHonest(c: Config, st: Pub, l: Ledger, x: nat, now: Time)
    requires c.maxIntervals >= 1 && Honest(c.maxIntervals, st.hwm, st.gaps, l) && x < MAX_UINT64
    requires Classify(c, st, x).AcceptWithGap? || Classify(c, st, x).AcceptLateFill?
    ensures Honest(c.maxIntervals, Observed(c, st, st.epoch, x, now).hwm, Observed(c, st, st.epoch, x, now).gaps,
      l.(accepted := l.accepted + {x}))
  {
    if x > st.hwm + 1 {
      GapHonest(c.maxIntervals, st.hwm, st.gaps, l, x);
    } else {
      FillHonest(c.maxIntervals, st.hwm, st.gaps, l, x);
    }
  }

  /** One event keeps the books honest. */
  lemma ObserveHonest(c: Config, st: Pub, l: Ledger, epoch: nat, x: nat, now: Time)
    requires c.maxIntervals >= 1 && Honest(c.maxIntervals, st.hwm, st.gaps, l) && x < MAX_UINT64
    ensures Honest(c.maxIntervals, Observed(c, st, epoch, x, now).hwm, Observed(c, st, epoch, x, now).gaps,
      Booked(l, Judge(c, st, epoch, x), x))
  {
    var v := Judge(c, st, epoch, x);
    if v.AcceptAfterRestart? {
      StartHonest(c.maxIntervals, x);
    } else if v.Accept? {
      NextHonest(c.maxIntervals, st.hwm, st.gaps, l);
    } else if v.AcceptWithGap? || v.AcceptLateFill? {
      ClassifyHonest(c, st, l, x, now);
    }
  }

  /** While nothing has been merged, no number is accepted twice in one incarnation. */
  lemma NeverAcceptedTwice(c: Config, st: Pub, l: Ledger, epoch: nat, x: nat)
    requires Honest(c.maxIntervals, st.hwm, st.gaps, l) && x < MAX_UINT64 && !st.gaps.truncated && x in l.accepted
    ensures var v := Judge(c, st, epoch, x); v.DropDuplicate? || v.DropStaleEpoch? || v.AcceptAfterRestart?
  {
    assert !Covers(st.gaps.intervals, x);
  }

  /** A completed snapshot forgives what was missing. */
  ghost function Forgiven(l: Ledger, st: Pub): Ledger {
    l.(forgiven := l.forgiven + (set x | l.base < x < st.hwm && Covers(st.gaps.intervals, x)))
  }

  lemma ClearHonest(max: nat, st: Pub, l: Ledger)
    requires Honest(max, st.hwm, st.gaps, l)
    ensures Honest(max, st.hwm, NO_GAPS, Forgiven(l, st))
  {
    forall x | l.base <= x <= st.hwm
      ensures x in l.accepted || x in Forgiven(l, st).forgiven
    {
      assert Covers(st.gaps.intervals, x) ==> l.base < x < st.hwm;
    }
  }

  /** Honest trust: a publisher is trusted only if every number from its baseline to its high-water
      mark was accepted in this incarnation or forgiven by a snapshot; and the count that decides it
      cannot have wrapped round. */
  lemma TrustIsHonest(max: nat, st: Pub, l: Ledger)
    requires Honest(max, st.hwm, st.gaps, l)
    ensures 0 <= Count(st.gaps.intervals) < MAX_UINT64
    ensures Trusted(st) ==> forall x :: l.base <= x <= st.hwm ==> x in l.accepted || x in l.forgiven
  {
    var s := st.gaps.intervals;
    CountAtLeast(s);
    if s != [] {
      assert l.base + 1 <= s[0].lo <= s[0].hi <= st.hwm - 1;
      CountWithin(s, l.base + 1, st.hwm - 1);
    } else {
      forall x | l.base <= x <= st.hwm
        ensures x in l.accepted || x in l.forgiven
      {
        assert !Covers(s, x);
      }
    }
  }

  // ---------------------------------------------------------------- the top of the sequence space

  /** What the classification would be in an unbounded sequence space. */
  ghost function ClassifyUnbounded(c: Config, st: Pub, x: nat): Verdict {
    if x == st.hwm + 1 then Accept
    else if x > st.hwm + 1 then AcceptWithGap
    else if ImplicitRestart(c, st.hwm, x) then AcceptAfterRestart
    else if Covers(st.gaps.intervals, x) then AcceptLateFill
    else DropDuplicate
  }

  /** The successor wraps at the top: the code agrees with the unbounded rule exactly when the
      high-water mark is below the top or the number is zero. */
  lemma WrapsOnlyAtTheTop(c: Config, st: Pub, x: nat)
    requires st.hwm <= MAX_UINT64 && x <= MAX_UINT64
    ensures Classify(c, st, x) == ClassifyUnbounded(c, st, x) <==> !(st.hwm == MAX_UINT64 && x > 0)
  {
  }

  /** At the top a repeat of the top number itself is accepted again, as a jump from zero. */
  lemma TopNumberAcceptedTwice(c: Config, st: Pub)
    requires c.maxIntervals >= 1 && st.hwm == MAX_UINT64 && st.gaps == NO_GAPS
    ensures Judge(c, st, st.epoch, MAX_UINT64) == AcceptWithGap
    ensures Covers(Observed(c, st, st.epoch, MAX_UINT64, 0).gaps.intervals, 0)
  {
    AddMeaning(NO_GAPS, c.maxIntervals, 0, MAX_UINT64 - 1);
  }

  // ---------------------------------------------------------------- every publisher, every run

  type Pubs = map<string, Pub>
  type Ledgers = map<string, Ledger>

  ghost predicate PubHonest(max: nat, pubs: Pubs, books: Ledgers, p: string)
    requires p in pubs && p in books
  {
    Honest(max, pubs[p].hwm, pubs[p].gaps, books[p])
  }

  /** Every tracked publisher has honest books. The empty name is the scan's sentinel, and
      validation refuses it. */
  ghost predicate AllHonest(max: nat, pubs: Pubs, books: Ledgers) {
    && pubs.Keys == books.Keys && "" !in pubs
    && (forall p {:trigger PubHonest(max, pubs, books, p)} :: p in pubs ==> PubHonest(max, pubs, books, p))
  }

  /** Names in dictionary order. */
  predicate NameBefore(a: string, b: string) {
    b != "" && (a == "" || a[0] < b[0] || (a[0] == b[0] && NameBefore(a[1..], b[1..])))
  }

  /** Names are ordered as texts: by the first character that differs, a prefix before what extends it. */
  lemma {:induction false} NameBeforeIff(a: string, b: string)
    ensures NameBefore(a, b) <==> exists n: nat :: DiffersAt(a, b, n)
    decreases |a|
  {
    if a != "" && b != "" && a[0] == b[0] {
      NameBeforeIff(a[1..], b[1..]);
      if n: nat :| DiffersAt(a[1..], b[1..], n) {
        assert a[..n + 1] == [a[0]] + a[1..][..n] && b[..n + 1] == [b[0]] + b[1..][..n];
        assert DiffersAt(a, b, n + 1);
      }
      if n: nat :| DiffersAt(a, b, n) {
        if n > 0 {
          assert a[1..][..n - 1] == a[..n][1..] && b[1..][..n - 1] == b[..n][1..];
          assert DiffersAt(a[1..], b[1..], n - 1);
        }
      }
    } else if NameBefore(a, b) {
      assert a[..0] == b[..0] && DiffersAt(a, b, 0);
    }
  }

  /** The names agree up to n; there a ends, or has the smaller character. */
  predicate DiffersAt(a: string, b: string, n: nat) {
    n <= |a| && n < |b| && a[..n] == b[..n] && (n == |a| || a[n] < b[n])
  }

  lemma {:induction false} NamesAreOrdered(a: string, b: string, c: string)
    ensures NameBefore(a, b) && NameBefore(b, c) ==> NameBefore(a, c)
    ensures a != b ==> NameBefore(a, b) || NameBefore(b, a)
    ensures !NameBefore(a, a)
    decreases |a| + |b| + |c|
  {
    if a != "" && b != "" && c != "" {
      NamesAreOrdered(a[1..], b[1..], c[1..]);
      assert a == [a[0]] + a[1..] && b == [b[0]] + b[1..];
    } else if a != "" && b != "" {
      NamesAreOrdered(a[1..], b[1..], c);
      assert a == [a[0]] + a[1..] && b == [b[0]] + b[1..];
    } else if a != "" {
      NamesAreOrdered(a[1..], b, c);
    }
  }

  /** Seen less recently, or as recently and with the earlier name. */
  predicate Staler(pubs: Pubs, p: string, q: string)
    requires p in pubs && q in pubs
  {
    pubs[p].lastSeen < pubs[q].lastSeen || (pubs[p].lastSeen == pubs[q].lastSeen && NameBefore(p, q))
  }

  /** The least recently seen publisher, ties to the earlier name. */
  predicate Oldest(pubs: Pubs, p: string) {
    p in pubs && forall q :: q in pubs && q != p ==> Staler(pubs, p, q)
  }

  datatype TrackOp = ObserveOp(publisher: string, epoch: nat, seqno: nat, now: Time, victim: string) |
    ClearGapsOp(publisher: string) | ResetOp

  ghost predicate LegalOp(op: TrackOp) { op.ObserveOp? ==> op.publisher != "" && op.seqno < MAX_UINT64 }

  /** The tracked publishers after one operation. The victim matters only to a newcomer in a full map. */
  ghost function PubsAfter(c: Config, pubs: Pubs, op: TrackOp): Pubs
    requires c.maxIntervals >= 1
  {
    match op
    case ObserveOp(p, epoch, x, now, victim) =>
      if p in pubs then pubs[p := Observed(c, pubs[p], epoch, x, now)]
      else (if |pubs| >= c.maxPublishers then pubs - {victim} else pubs)[p := NewPub(epoch, x, now)]
    case ClearGapsOp(p) => if p in pubs then pubs[p := pubs[p].(gaps := NO_GAPS)] else pubs
    case ResetOp => map[]
  }

  ghost function BooksAfter(c: Config, pubs: Pubs, books: Ledgers, op: TrackOp): Ledgers
    requires pubs.Keys == books.Keys
  {
    match op
    case ObserveOp(p, epoch, x, now, victim) =>
      if p in pubs then books[p := Booked(books[p], Judge(c, pubs[p], epoch, x), x)]
      else
        (if |pubs| >= c.maxPublishers then books - {victim} else books)
        [p := Booked(Ledger(0, {}, {}), AcceptFirstSeen, x)]
    case ClearGapsOp(p) => if p in pubs then books[p := Forgiven(books[p], pubs[p])] else books
    case ResetOp => map[]
  }

  lemma OneChangeHonest(max: nat, pubs: Pubs, books: Ledgers, p: string, st: Pub, l: Ledger)
    requires AllHonest(max, pubs, books) && p != "" && Honest(max, st.hwm, st.gaps, l)
    ensures AllHonest(max, pubs[p := st], books[p := l])
  {
    var pubs', books' := pubs[p := st], books[p := l];
    forall q | q in pubs'
      ensures PubHonest(max, pubs', books', q)
    {
      assert q != p ==> PubHonest(max, pubs, books, q);
    }
  }

  lemma DropHonest(max: nat, pubs: Pubs, books: Ledgers, p: string)
    requires AllHonest(max, pubs, books)
    ensures AllHonest(max, pubs - {p}, books - {p})
  {
    forall q | q in pubs - {p}
      ensures PubHonest(max, pubs - {p}, books - {p}, q)
    {
      assert PubHonest(max, pubs, books, q);
    }
  }

  lemma StepHonest(c: Config, pubs: Pubs, books: Ledgers, op: TrackOp)
    requires c.maxIntervals >= 1 && AllHonest(c.maxIntervals, pubs, books) && LegalOp(op)
    ensures AllHonest(c.maxIntervals, PubsAfter(c, pubs, op), BooksAfter(c, pubs, books, op))
  {
    match op
    case ObserveOp(p, epoch, x, now, victim) =>
      if p in pubs {
        assert PubHonest(c.maxIntervals, pubs, books, p);
        ObserveHonest(c, pubs[p], books[p], epoch, x, now);
        OneChangeHonest(c.maxIntervals, pubs, books, p, Observed(c, pubs[p], epoch, x, now),
          Booked(books[p], Judge(c, pubs[p], epoch, x), x));
      } else {
        StartHonest(c.maxIntervals, x);
        DropHonest(c.maxIntervals, pubs, books, victim);
        var full := |pubs| >= c.maxPublishers;
        OneChangeHonest(c.maxIntervals, if full then pubs - {victim} else pubs,
          if full then books - {victim} else books, p, NewPub(epoch, x, now), Ledger(x, {x}, {}));
      }
    case ClearGapsOp(p) =>
      if p in pubs {
        assert PubHonest(c.maxIntervals, pubs, books, p);
        ClearHonest(c.maxIntervals, pubs[p], books[p]);
        OneChangeHonest(c.maxIntervals, pubs, books, p, pubs[p].(gaps := NO_GAPS), Forgiven(books[p], pubs[p]));
      }
    case ResetOp =>
  }

  ghost predicate Arises(c: Config, ops: seq<TrackOp>, pubs: Pubs, books: Ledgers)
    requires c.maxIntervals >= 1
    decreases |ops|
  {
    if ops == [] then pubs == map[] && books == map[]
    else exists pubs0, books0 ::
      && Arises(c, ops[..|ops| - 1], pubs0, books0) && pubs0.Keys == books0.Keys && LegalOp(ops[|ops| - 1])
      && pubs == PubsAfter(c, pubs0, ops[|ops| - 1]) && books == BooksAfter(c, pubs0, books0, ops[|ops| - 1])
  }

  lemma {:induction false} ReachableIsHonest(c: Config, ops: seq<TrackOp>, pubs: Pubs, books: Ledgers)
    requires c.maxIntervals >= 1 && Arises(c, ops, pubs, books)
    ensures AllHonest(c.maxIntervals, pubs, books)
    decreases |ops|
  {
    if ops != [] {
      var last := ops[|ops| - 1];
      var pubs0, books0 :|
        && Arises(c, ops[..|ops| - 1], pubs0, books0) && pubs0.Keys == books0.Keys && LegalOp(last)
        && pubs == PubsAfter(c, pubs0, last) && books == BooksAfter(c, pubs0, books0, last);
      ReachableIsHonest(c, ops[..|ops| - 1], pubs0, books0);
      StepHonest(c, pubs0, books0, last);
    }
  }

  /** Honest trust in every reachable state: a trusted publisher's numbers, from its baseline to its
      high-water mark, were all accepted or forgiven; the count behind the answer never wraps; and
      while nothing was merged, a number already accepted is not accepted again. */
  lemma TrustIsHonestOnEveryRun(c: Config, ops: seq<TrackOp>, pubs: Pubs, books: Ledgers, p: string, epoch: nat,
      again: nat)
    requires c.maxIntervals >= 1 && Arises(c, ops, pubs, books) && p in pubs && again < MAX_UINT64
    ensures p in books && 0 <= Count(pubs[p].gaps.intervals) < MAX_UINT64
    ensures Trusted(pubs[p]) ==> forall x :: books[p].base <= x <= pubs[p].hwm ==>
      x in books[p].accepted || x in books[p].forgiven
    ensures !pubs[p].gaps.truncated && again in books[p].accepted ==>
              Judge(c, pubs[p], epoch, again) in {DropDuplicate, DropStaleEpoch, AcceptAfterRestart}
  {
    ReachableIsHonest(c, ops, pubs, books);
    assert PubHonest(c.maxIntervals, pubs, books, p);
    TrustIsHonest(c.maxIntervals, pubs[p], books[p]);
    if !pubs[p].gaps.truncated && again in books[p].accepted {
      NeverAcceptedTwice(c, pubs[p], books[p], epoch, again);
    }
  }

  // ---------------------------------------------------------------- verdicts in numbers

  /** The verdict on a known publisher's event, in numbers, below the top: exactly when it is the next,
      runs ahead, starts again, fills a gap, repeats, or is left over from an older epoch. */
  lemma VerdictIff(c: Config, st: Pub, epoch: nat, x: nat)
    requires st.hwm < MAX_UINT64
    ensures var v := Judge(c, st, epoch, x);
      var again := x + c.restartDelta < st.hwm && x < c.restartCeiling;
      && (v.Accept? <==> epoch == st.epoch && x == st.hwm + 1)
      && (v.AcceptWithGap? <==> epoch == st.epoch && x > st.hwm + 1)
      && (v.AcceptAfterRestart? <==> epoch > st.epoch || (epoch == st.epoch && again))
      && (v.AcceptLateFill? <==> epoch == st.epoch && x <= st.hwm && !again && Covers(st.gaps.intervals, x))
      && (v.DropDuplicate? <==> epoch == st.epoch && x <= st.hwm && !again && !Covers(st.gaps.intervals, x))
      && (v.DropStaleEpoch? <==> epoch < st.epoch)
  {
  }

  /** What an event leaves of the publisher's state, in numbers: an accepted one moves the high-water mark
      to it, except when it fills a gap; a restart forgets what was missing; a repeat changes nothing but
      when the publisher was last seen. */
  lemma ObservedTells(c: Config, st: Pub, epoch: nat, x: nat, now: Time)
    requires c.maxIntervals >= 1 && Canonical(st.gaps.intervals) && st.hwm < MAX_UINT64 && x <= MAX_UINT64
    ensures var v, s := Judge(c, st, epoch, x), Observed(c, st, epoch, x, now);
      && s.lastSeen == now && s.epoch == (if epoch > st.epoch then epoch else st.epoch)
      && s.hwm == (if v.Accepted() && !v.AcceptLateFill? then x else st.hwm)
      && s.events == st.events + (if v.Accepted() then 1 else 0)
      && s.restarts == st.restarts + (if v.AcceptAfterRestart? then 1 else 0)
      && s.incarnation == st.incarnation + (if v.AcceptAfterRestart? && epoch == st.epoch then 1 else 0)
      && (v.AcceptAfterRestart? ==> s.gaps.intervals == [] && !s.gaps.truncated)
      && (v.Accept? || !v.Accepted() ==> s.gaps == st.gaps)
      && (v.AcceptWithGap? ==>
            forall y :: Covers(st.gaps.intervals, y) || st.hwm < y < x ==> Covers(s.gaps.intervals, y))
      && (v.AcceptLateFill? && !s.gaps.truncated ==>
            forall y :: Covers(s.gaps.intervals, y) <==> Covers(st.gaps.intervals, y) && y != x)
  {
    var v := Judge(c, st, epoch, x);
    if v.AcceptWithGap? {
      AddMeaning(st.gaps, c.maxIntervals, Succ(st.hwm), x - 1);
    } else if v.AcceptLateFill? {
      FillMeaning(st.gaps, c.maxIntervals, x);
    }
  }

  /** Consecutive events of one epoch, from number x on. */
  ghost function Heard(c: Config, st: Pub, epoch: nat, x: nat, n: nat, now: Time): Pub
    requires c.maxIntervals >= 1
    decreases n
  {
    if n == 0 then st else Observed(c, Heard(c, st, epoch, x, n - 1, now), epoch, x + n - 1, now)
  }

  /** A publisher that starts again without saying so, far below its high-water mark and near zero, is
      heard from then on: the event that starts it and every consecutive one after it is accepted, and
      none of what was missing before counts against it. */
  lemma {:induction false} RenumberedIsHeard(c: Config, st: Pub, x: nat, n: nat, now: Time)
    requires c.maxIntervals >= 1 && st.hwm < MAX_UINT64 && x + n <= MAX_UINT64
    requires x + c.restartDelta < st.hwm && x < c.restartCeiling
    ensures Judge(c, st, st.epoch, x).AcceptAfterRestart?
    ensures var s := Heard(c, st, st.epoch, x, n + 1, now);
      && s.epoch == st.epoch && s.hwm == x + n && s.gaps.intervals == [] && !s.gaps.truncated
      && s.events == st.events + n + 1 && Trusted(s)
      && (x + n < MAX_UINT64 ==> Judge(c, s, st.epoch, x + n + 1).Accept?)
    decreases n
  {
    assert Heard(c, st, st.epoch, x, 0, now) == st;
    if n > 0 {
      RenumberedIsHeard(c, st, x, n - 1, now);
    }
  }

  // ---------------------------------------------------------------- the implementation

  /** What an event needs of the publisher's state. */
  ghost predicate Intact(c: Config, st: Pub) {
    c.maxIntervals >= 1 && Canonical(st.gaps.intervals) && |st.gaps.intervals| <= c.maxIntervals && st.hwm <= MAX_UINT64
  }

  /** A range of numbers that were never observed. */
  datatype Loss = Loss(from: nat, to: nat)

  /** One event against the state of a publisher already known. */
  method ObservePub(c: Config, st: Pub, epoch: nat, x: nat, now: Time)
      returns (v: Verdict, st': Pub, loss: Option<Loss>)
    requires Intact(c, st) && x <= MAX_UINT64
    ensures v == Judge(c, st, epoch, x) && st' == Observed(c, st, epoch, x, now)
    ensures st.hwm < MAX_UINT64 ==> (v.AcceptAfterRestart? <==>
      epoch > st.epoch || (epoch == st.epoch && x + c.restartDelta < st.hwm && x < c.restartCeiling))
    ensures loss == if v.AcceptWithGap? then Some(Loss(Succ(st.hwm), x - 1)) else None
  {
    st', loss := st.(lastSeen := now), None;
    if epoch > st.epoch {
      v := AcceptAfterRestart;
      st' := st'.(epoch := epoch, hwm := x, gaps := NO_GAPS, restarts := st.restarts + 1, events := st.events + 1);
    } else if epoch < st.epoch {
      v := DropStaleEpoch;
    } else {
      v, st', loss := ObserveSameEpoch(c, st', x);
    }
  }

  /** Within one epoch only the number decides. */
  method ObserveSameEpoch(c: Config, st: Pub, x: nat) returns (v: Verdict, st': Pub, loss: Option<Loss>)
    requires Intact(c, st) && x <= MAX_UINT64
    ensures v == Classify(c, st, x) && st' == Observed(c, st, st.epoch, x, st.lastSeen)
    ensures st.hwm < MAX_UINT64 ==>
      (v.AcceptAfterRestart? <==> x + c.restartDelta < st.hwm && x < c.restartCeiling)
    ensures loss == if v.AcceptWithGap? then Some(Loss(Succ(st.hwm), x - 1)) else None
  {
    st', loss := st, None;
    if st.hwm != MAX_UINT64 && x == st.hwm + 1 {
      v := Accept;
      st' := st.(hwm := x, events := st.events + 1);
    } else if x > Succ(st.hwm) {
      v := AcceptWithGap;
      loss := Some(Loss(Succ(st.hwm), x - 1));
      var gaps := AddTo(st.gaps, c.maxIntervals, Succ(st.hwm), x - 1);
      st' := st.(gaps := gaps, hwm := x, events := st.events + 1);
    } else if ImplicitRestart(c, st.hwm, x) {
      v := AcceptAfterRestart;
      st' := st.(hwm := x, gaps := NO_GAPS, incarnation := st.incarnation + 1, restarts := st.restarts + 1,
        events := st.events + 1);
    } else {
      var missing := IsMissing(st.gaps.intervals, x);
      v := DropDuplicate;
      if missing {
        v := AcceptLateFill;
        var gaps := FillIn(st.gaps, c.maxIntervals, x);
        st' := st.(gaps := gaps, events := st.events + 1);
      }
    }
  }

  lemma ObservedIntact(c: Config, st: Pub, epoch: nat, x: nat, now: Time)
    requires Intact(c, st) && x <= MAX_UINT64
    ensures Intact(c, Observed(c, st, epoch, x, now))
  {
    var v := Judge(c, st, epoch, x);
    if v.AcceptWithGap? {
      AddRangeCanonical(st.gaps.intervals, Succ(st.hwm), x - 1);
      CappedFits(st.gaps.(intervals := AddRange(st.gaps.intervals, Succ(st.hwm), x - 1)), c.maxIntervals);
    } else if v.AcceptLateFill? {
      FillOneCanonical(st.gaps.intervals, x);
      CappedFits(st.gaps.(intervals := FillOne(st.gaps.intervals, x)), c.maxIntervals);
    }
  }

  /** One pass over the publishers, in any order, for the least recently seen. */
  method FindOldest(pubs: Pubs) returns (oldest: string)
    requires "" !in pubs && |pubs| > 0
    ensures Oldest(pubs, oldest)
    ensures oldest in pubs && forall q :: q in pubs && q != oldest ==>
      pubs[oldest].lastSeen < pubs[q].lastSeen || (pubs[oldest].lastSeen == pubs[q].lastSeen && NameBefore(oldest, q))
  {
    oldest := "";
    var left := pubs.Keys;
    while left != {}
      invariant left <= pubs.Keys
      invariant oldest == "" ==> left == pubs.Keys
      invariant oldest !in left
      invariant oldest != "" ==> oldest in pubs && forall q :: q in pubs && q !in left && q != oldest ==>
        Staler(pubs, oldest, q)
      decreases |left|
    {
      var id :| id in left;
      var at, best := pubs[id].lastSeen, if oldest == "" then 0 else pubs[oldest].lastSeen;
      ghost var was := oldest;
      if oldest == "" || at < best || (at == best && NameBefore(id, oldest)) {
        oldest := id;
      }
      left := left - {id};
      if was != "" {
        StillStaler(pubs, was, id, left, oldest);
      }
    }
    assert oldest == "" ==> pubs.Keys == {} && |pubs.Keys| == |pubs|;
  }

  /** The staler of the best so far and one more is staler than all the others seen. */
  lemma StillStaler(pubs: Pubs, was: string, id: string, left: set<string>, oldest: string)
    requires was in pubs && id in pubs && was != id && oldest == if Staler(pubs, id, was) then id else was
    requires forall q :: q in pubs && q !in left && q != id && q != was ==> Staler(pubs, was, q)
    ensures forall q :: q in pubs && q !in left && q != oldest ==> Staler(pubs, oldest, q)
  {
    NamesAreOrdered(was, id, id);
    forall q | q in pubs && q !in left && q != oldest
      ensures Staler(pubs, oldest, q)
    {
      NamesAreOrdered(id, was, q);
    }
  }

  ghost predicate PubIntact(c: Config, pubs: Pubs, p: string)
    requires p in pubs
  {
    Intact(c, pubs[p])
  }

  ghost predicate AllIntact(c: Config, pubs: Pubs) {
    "" !in pubs && forall p {:trigger PubIntact(c, pubs, p)} :: p in pubs ==> PubIntact(c, pubs, p)
  }

  lemma StepIntact(c: Config, pubs: Pubs, op: TrackOp)
    requires c.maxIntervals >= 1 && AllIntact(c, pubs)
    requires op.ObserveOp? ==> op.publisher != "" && op.seqno <= MAX_UINT64
    ensures AllIntact(c, PubsAfter(c, pubs, op))
  {
    var pubs' := PubsAfter(c, pubs, op);
    forall p | p in pubs'
      ensures PubIntact(c, pubs', p)
    {
      if p in pubs {
        assert PubIntact(c, pubs, p);
        if op.ObserveOp? && p == op.publisher {
          ObservedIntact(c, pubs[p], op.epoch, op.seqno, op.now);
        }
      }
    }
  }

  /** One event against the tracked publishers. */
  method ObserveIn(c: Config, pubs: Pubs, e: Event, now: Time)
    returns (pubs': Pubs, v: Verdict, loss: Option<Loss>, victim: string)
    requires c.maxIntervals >= 1 && 1 <= c.maxPublishers && |pubs| <= c.maxPublishers && AllIntact(c, pubs)
    requires e.publisher != "" && e.seqno <= MAX_UINT64
    ensures pubs' == PubsAfter(c, pubs, ObserveOp(e.publisher, e.epoch, e.seqno, now, victim))
    ensures |pubs'| <= c.maxPublishers
    ensures v == if e.publisher in pubs then Judge(c, pubs[e.publisher], e.epoch, e.seqno) else AcceptFirstSeen
    ensures e.publisher in pubs && pubs[e.publisher].hwm < MAX_UINT64 ==>
      var st := pubs[e.publisher];
      v.AcceptAfterRestart? <==>
        e.epoch > st.epoch || (e.epoch == st.epoch && e.seqno + c.restartDelta < st.hwm && e.seqno < c.restartCeiling)
    ensures e.publisher !in pubs && |pubs| >= c.maxPublishers ==> Oldest(pubs, victim)
  {
    var p, kept := e.publisher, pubs;
    victim, loss := "", None;
    if p in pubs {
      assert PubIntact(c, pubs, p);
      var st;
      v, st, loss := ObservePub(c, pubs[p], e.epoch, e.seqno, now);
      PutGrows(pubs, p, st);
      pubs' := pubs[p := st];
    } else {
      if |pubs| >= c.maxPublishers {
        victim := FindOldest(pubs);
        kept := pubs - {victim};
        DropShrinks(pubs, victim);
      }
      v := AcceptFirstSeen;
      PutGrows(kept, p, NewPub(e.epoch, e.seqno, now));
      pubs' := kept[p := NewPub(e.epoch, e.seqno, now)];
    }
  }

  class Tracker {
    const cfg: Config
    var pubs: Pubs
    var evictions: nat
    ghost var books: Ledgers
    /** The top number has been observed, after which the successor may have wrapped. */
    ghost var topped: bool

    ghost predicate Valid()
      reads this
    {
      && cfg.maxIntervals >= 1 && cfg.maxPublishers >= 1 && |pubs| <= cfg.maxPublishers
      && AllIntact(cfg, pubs) && pubs.Keys == books.Keys
      && (!topped ==> AllHonest(cfg.maxIntervals, pubs, books))
    }

    constructor (cfg: Config)
      requires cfg.maxIntervals >= 1 && cfg.maxPublishers >= 1
      ensures Valid() && this.cfg == cfg && pubs == map[] && books == map[] && !topped
    {
      this.cfg := cfg;
      pubs, books, evictions, topped := map[], map[], 0, false;
    }

    /** Classifies one event. A newcomer to a full map takes the place of the least recently seen. */
    method Observe(e: Event, now: Time) returns (v: Verdict, loss: Option<Loss>, ghost op: TrackOp)
      requires Valid() && e.publisher != "" && e.seqno <= MAX_UINT64
      modifies this
      ensures Valid() && topped == (old(topped) || e.seqno == MAX_UINT64)
      ensures op.ObserveOp? && op == ObserveOp(e.publisher, e.epoch, e.seqno, now, op.victim)
      ensures pubs == PubsAfter(cfg, old(pubs), op) && books == BooksAfter(cfg, old(pubs), old(books), op)
      ensures v ==
        if e.publisher in old(pubs) then Judge(cfg, old(pubs)[e.publisher], e.epoch, e.seqno) else AcceptFirstSeen
      ensures e.publisher in old(pubs) && old(pubs)[e.publisher].hwm < MAX_UINT64 ==>
        var st := old(pubs)[e.publisher];
        && (v.Accept? <==> e.epoch == st.epoch && e.seqno == st.hwm + 1)
        && (v.AcceptWithGap? <==> e.epoch == st.epoch && e.seqno > st.hwm + 1)
        && (v.AcceptAfterRestart? <==>
              || e.epoch > st.epoch
              || (e.epoch == st.epoch && e.seqno + cfg.restartDelta < st.hwm && e.seqno < cfg.restartCeiling))
        && (v.AcceptLateFill? ==> e.epoch == st.epoch && Covers(st.gaps.intervals, e.seqno))
        && (v.DropStaleEpoch? <==> e.epoch < st.epoch)
      ensures e.publisher !in old(pubs) && |old(pubs)| >= cfg.maxPublishers ==>
                Oldest(old(pubs), op.victim) && evictions == old(evictions) + 1
    {
      var victim, admitted;
      admitted, v, loss, victim := ObserveIn(cfg, pubs, e, now);
      if e.publisher !in pubs && |pubs| >= cfg.maxPublishers {
        evictions := evictions + 1;
      }
      op := ObserveOp(e.publisher, e.epoch, e.seqno, now, victim);
      topped := topped || e.seqno == MAX_UINT64;
      StepIntact(cfg, pubs, op);
      if !topped {
        StepHonest(cfg, pubs, books, op);
      }
      books := BooksAfter(cfg, pubs, books, op);
      pubs := admitted;
    }

    /** No evidence of loss: nothing missing, and the set still knows exactly what is. */
    method Trust(p: string) returns (t: Events.Trust)
      requires Valid()
      ensures t == if p in pubs && !Trusted(pubs[p]) then Suspect else Complete
      ensures p in pubs && t == Complete && !topped ==>
        forall x :: books[p].base <= x <= pubs[p].hwm ==> x in books[p].accepted || x in books[p].forgiven
    {
      t := Complete;
      if p in pubs {
        assert PubIntact(cfg, pubs, p);
        CountAtLeast(pubs[p].gaps.intervals);
        if !topped {
          assert PubHonest(cfg.maxIntervals, pubs, books, p);
          TrustIsHonest(cfg.maxIntervals, pubs[p], books[p]);
        }
        if Count(pubs[p].gaps.intervals) > 0 || pubs[p].gaps.truncated {
          t := Suspect;
        }
      }
    }

    method ClearGaps(p: string)
      requires Valid()
      modifies this
      ensures Valid() && topped == old(topped)
      ensures pubs == PubsAfter(cfg, old(pubs), ClearGapsOp(p))
      ensures pubs.Keys == old(pubs).Keys
      ensures forall q :: q in pubs && q != p ==> pubs[q] == old(pubs)[q]
      ensures p in pubs ==> pubs[p] == old(pubs)[p].(gaps := Gaps([], false))
      ensures books == BooksAfter(cfg, old(pubs), old(books), ClearGapsOp(p))
    {
      StepIntact(cfg, pubs, ClearGapsOp(p));
      if !topped {
        StepHonest(cfg, pubs, books, ClearGapsOp(p));
      }
      books := BooksAfter(cfg, pubs, books, ClearGapsOp(p));
      if p in pubs {
        PutGrows(pubs, p, pubs[p].(gaps := NO_GAPS));
        pubs := pubs[p := pubs[p].(gaps := NO_GAPS)];
      }
    }

    /** Nothing that was tracked matters any more. */
    method Reset()
      requires Valid()
      modifies this
      ensures Valid() && pubs == map[] && books == map[] && !topped
    {
      pubs, books, topped := map[], map[], false;
    }
  }

  lemma DropShrinks(pubs: Pubs, p: string)
    requires p in pubs
    ensures |pubs - {p}| == |pubs| - 1
  {
    assert (pubs - {p}).Keys == pubs.Keys - {p};
    assert |pubs.Keys| == |pubs| && |(pubs - {p}).Keys| == |pubs - {p}|;
  }

  lemma PutGrows(pubs: Pubs, p: string, st: Pub)
    ensures |pubs[p := st]| == if p in pubs then |pubs| else |pubs| + 1
  {
    var grown := pubs[p := st];
    assert grown.Keys == pubs.Keys + {p};
    assert |grown.Keys| == |grown| && |pubs.Keys| == |pubs|;
  }
}
