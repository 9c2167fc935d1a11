/** A capped interval set over sequence numbers (pkg/seqtrack/gapset.go). */
module GapSets {
  import opened Events

  datatype Interval = Interval(lo: nat, hi: nat)

  /** Sorted, disjoint, non-adjacent, within the sequence space. */
  ghost predicate Canonical(s: seq<Interval>) {
    && (forall i :: 0 <= i < |s| ==> s[i].lo <= s[i].hi <= MAX_UINT64)
    && (forall i, j {:trigger Apart(s, i, j)} :: 0 <= i < j < |s| ==> Apart(s, i, j))
  }

  /** At least one number lies between intervals i and j. */
  ghost predicate Apart(s: seq<Interval>, i: int, j: int)
    requires 0 <= i < |s| && 0 <= j < |s|
  {
    s[i].hi + 1 < s[j].lo
  }

  lemma PairsApart(s: seq<Interval>)
    requires Canonical(s)
    ensures forall i, j :: 0 <= i < j < |s| ==> s[i].hi + 1 < s[j].lo
  {
    forall i, j | 0 <= i < j < |s|
      ensures s[i].hi + 1 < s[j].lo
    {
      assert Apart(s, i, j);
    }
  }

  lemma TailCanonical(s: seq<Interval>)
    requires Canonical(s) && s != []
    ensures Canonical(s[1..]) && forall i :: 1 <= i < |s| ==> s[0].hi + 1 < s[i].lo
  {
    forall i, j | 0 <= i < j < |s[1..]|
      ensures Apart(s[1..], i, j)
    {
      assert Apart(s, i + 1, j + 1);
    }
    forall i | 1 <= i < |s|
      ensures s[0].hi + 1 < s[i].lo
    {
      assert Apart(s, 0, i);
    }
  }

  ghost predicate Covers(s: seq<Interval>, x: int) {
    exists i :: 0 <= i < |s| && s[i].lo <= x <= s[i].hi
  }

  // ---------------------------------------------------------------- what the operations compute

  /** The first interval that ends at or after x. */
  function FirstEnding(s: seq<Interval>, x: int): nat {
    if s == [] || s[0].hi >= x then 0 else 1 + FirstEnding(s[1..], x)
  }

  /** The first interval that starts after x. */
  function FirstStarting(s: seq<Interval>, x: int): nat {
    if s == [] || s[0].lo > x then 0 else 1 + FirstStarting(s[1..], x)
  }

  lemma {:induction false} FirstEndingSplits(s: seq<Interval>, x: int)
    requires Canonical(s)
    ensures FirstEnding(s, x) <= |s|
    ensures forall i :: 0 <= i < |s| ==> (s[i].hi >= x <==> FirstEnding(s, x) <= i)
  {
    if s != [] {
      TailCanonical(s);
    }
    if s != [] && s[0].hi < x {
      FirstEndingSplits(s[1..], x);
      assert forall i :: 1 <= i < |s| ==> s[i] == s[1..][i - 1];
    }
  }

  lemma {:induction false} FirstStartingSplits(s: seq<Interval>, x: int)
    requires Canonical(s)
    ensures FirstStarting(s, x) <= |s|
    ensures forall i :: 0 <= i < |s| ==> (s[i].lo > x <==> FirstStarting(s, x) <= i)
  {
    if s != [] {
      TailCanonical(s);
    }
    if s != [] && s[0].lo <= x {
      FirstStartingSplits(s[1..], x);
      assert forall i :: 1 <= i < |s| ==> s[i] == s[1..][i - 1];
    }
  }

  function Min(a: nat, b: nat): nat { if a < b then a else b }
  function Max(a: nat, b: nat): nat { if a > b then a else b }

  /** Intervals a to b - 1 and [lo, hi] become one. */
  function Splice(s: seq<Interval>, a: nat, b: nat, lo: nat, hi: nat): seq<Interval>
    requires a <= |s| && b <= |s|
  {
    if a < b then s[..a] + [Interval(Min(s[a].lo, lo), Max(s[b - 1].hi, hi))] + s[b..]
    else s[..a] + [Interval(lo, hi)] + s[a..]
  }

  function AddRange(s: seq<Interval>, lo: nat, hi: nat): seq<Interval> {
    var a, b := FirstEnding(s, lo - 1), FirstStarting(s, hi + 1);
    if a <= |s| && b <= |s| then Splice(s, a, b, lo, hi) else s
  }

  function FillOne(s: seq<Interval>, x: nat): seq<Interval> {
    var i := FirstEnding(s, x);
    if i >= |s| || s[i].lo > x then s
    else if s[i].lo == s[i].hi then s[..i] + s[i + 1..]
    else if x == s[i].lo then s[i := Interval(x + 1, s[i].hi)]
    else if x == s[i].hi then s[i := Interval(s[i].lo, x - 1)]
    else s[..i] + [Interval(s[i].lo, x - 1), Interval(x + 1, s[i].hi)] + s[i + 1..]
  }

  /** The step from the end of interval i to the start of the next. */
  function Hole(s: seq<Interval>, i: nat): int
    requires i + 1 < |s|
  {
    s[i + 1].lo - s[i].hi
  }

  /** b is the first of the smallest among the first n holes. */
  ghost predicate FirstSmallest(s: seq<Interval>, n: nat, b: nat) {
    && b < n < |s|
    && (forall j: nat {:trigger Hole(s, j)} :: j < n ==>
         Hole(s, b) <= Hole(s, j) && (j < b ==> Hole(s, b) < Hole(s, j)))
  }

  lemma {:induction false} HasSmallest(s: seq<Interval>, n: nat)
    requires 1 <= n < |s|
    ensures exists b :: FirstSmallest(s, n, b)
  {
    if n == 1 {
      assert FirstSmallest(s, 1, 0);
    } else {
      HasSmallest(s, n - 1);
      var b :| FirstSmallest(s, n - 1, b);
      assert FirstSmallest(s, n, if Hole(s, n - 1) < Hole(s, b) then n - 1 else b);
    }
  }

  ghost function Smallest(s: seq<Interval>): (b: nat)
    requires |s| >= 2
    ensures FirstSmallest(s, |s| - 1, b)
  {
    HasSmallest(s, |s| - 1);
    var b :| FirstSmallest(s, |s| - 1, b);
    b
  }

  function MergeAt(s: seq<Interval>, i: nat): seq<Interval>
    requires i + 1 < |s|
  {
    s[..i] + [Interval(s[i].lo, s[i + 1].hi)] + s[i + 2..]
  }

  datatype Gaps = Gaps(intervals: seq<Interval>, truncated: bool)

  /** Merges across the smallest hole until the list fits. */
  ghost function Capped(g: Gaps, max: nat): Gaps
    requires max >= 1
    decreases |g.intervals|
  {
    if |g.intervals| <= max then g else Capped(MergeOnce(g), max)
  }

  ghost function MergeOnce(g: Gaps): (r: Gaps)
    requires |g.intervals| >= 2
    ensures |r.intervals| == |g.intervals| - 1
  {
    Gaps(MergeAt(g.intervals, Smallest(g.intervals)), true)
  }

  ghost function Add(g: Gaps, max: nat, lo: nat, hi: nat): Gaps
    requires max >= 1
  {
    Capped(g.(intervals := AddRange(g.intervals, lo, hi)), max)
  }

  ghost function Fill(g: Gaps, max: nat, x: nat): Gaps
    requires max >= 1
  {
    Capped(g.(intervals := FillOne(g.intervals, x)), max)
  }

  /** How many numbers the intervals cover. */
  function Count(s: seq<Interval>): int
  {
    if s == [] then 0 else (s[0].hi - s[0].lo + 1) + Count(s[1..])
  }

  // ---------------------------------------------------------------- what they mean

  /** Adding covers exactly the new range besides what was covered. */
  lemma AddRangeMeaning(s: seq<Interval>, lo: nat, hi: nat)
    requires Canonical(s) && lo <= hi <= MAX_UINT64
    ensures Canonical(AddRange(s, lo, hi)) && |AddRange(s, lo, hi)| <= |s| + 1
    ensures forall x :: Covers(AddRange(s, lo, hi), x) <==> Covers(s, x) || lo <= x <= hi
  {
    var a, b := FirstEnding(s, lo - 1), FirstStarting(s, hi + 1);
    FirstEndingSplits(s, lo - 1);
    FirstStartingSplits(s, hi + 1);
    SpliceMeaning(s, a, b, lo, hi);
  }

  lemma SpliceCanonical(s: seq<Interval>, a: nat, b: nat, lo: nat, hi: nat, m: Interval)
    requires Canonical(s) && lo <= hi <= MAX_UINT64 && Touches(s, a, b, lo, hi) && Merged(s, a, b, lo, hi, m)
    ensures Canonical(s[..a] + [m] + s[b..])
  {
    var r := s[..a] + [m] + s[b..];
    assert m.lo <= m.hi <= MAX_UINT64;
    forall i, j | 0 <= i < j < |r|
      ensures Apart(r, i, j)
    {
      if i < a && j == a {
        assert a < b ==> Apart(s, i, a);
      } else if i == a {
        assert a < b ==> Apart(s, b - 1, j - a - 1 + b);
      } else {
        assert Apart(s, if i < a then i else i - a - 1 + b, if j < a then j else j - a - 1 + b);
      }
    }
  }

  lemma SpliceMeaning(s: seq<Interval>, a: nat, b: nat, lo: nat, hi: nat)
    requires Canonical(s) && lo <= hi <= MAX_UINT64 && a <= |s| && b <= |s| && Touches(s, a, b, lo, hi)
    ensures Canonical(Splice(s, a, b, lo, hi)) && |Splice(s, a, b, lo, hi)| <= |s| + 1
    ensures forall x :: Covers(Splice(s, a, b, lo, hi), x) <==> Covers(s, x) || lo <= x <= hi
  {
    var r := Splice(s, a, b, lo, hi);
    assert b == |s| || s[b].lo > hi + 1;
    var m := r[a];
    assert a <= b && r == s[..a] + [m] + s[b..];
    SpliceCanonical(s, a, b, lo, hi, m);
    forall x
      ensures Covers(r, x) <==> Covers(s, x) || lo <= x <= hi
    {
      SpliceCovers(s, a, b, lo, hi, m, x);
    }
  }

  /** Intervals a to b - 1 are the ones that overlap or abut [lo, hi]. */
  ghost predicate Touches(s: seq<Interval>, a: nat, b: nat, lo: nat, hi: nat) {
    && (forall i :: 0 <= i < |s| ==> (s[i].hi >= lo - 1 <==> a <= i))
    && (forall i :: 0 <= i < |s| ==> (s[i].lo > hi + 1 <==> b <= i))
  }

  predicate Merged(s: seq<Interval>, a: nat, b: nat, lo: nat, hi: nat, m: Interval) {
    a <= b <= |s| && m == if a < b then Interval(Min(s[a].lo, lo), Max(s[b - 1].hi, hi)) else Interval(lo, hi)
  }

  lemma CoversConcat(a: seq<Interval>, b: seq<Interval>, x: int)
    ensures Covers(a + b, x) <==> Covers(a, x) || Covers(b, x)
  {
    var r := a + b;
    if Covers(a, x) {
      var i :| 0 <= i < |a| && a[i].lo <= x <= a[i].hi;
      assert r[i] == a[i];
    }
    if Covers(b, x) {
      var i :| 0 <= i < |b| && b[i].lo <= x <= b[i].hi;
      assert r[|a| + i] == b[i];
    }
    if Covers(r, x) {
      var i :| 0 <= i < |r| && r[i].lo <= x <= r[i].hi;
      assert if i < |a| then r[i] == a[i] else r[i] == b[i - |a|];
    }
  }

  /** A number is covered by the part before, between or after two cuts. */
  lemma CoversParts(a: seq<Interval>, m: seq<Interval>, b: seq<Interval>, x: int)
    ensures Covers(a + m + b, x) <==> Covers(a, x) || Covers(m, x) || Covers(b, x)
  {
    CoversConcat(a + m, b, x);
    CoversConcat(a, m, x);
  }

  lemma CoversCuts(s: seq<Interval>, i: nat, j: nat, x: int)
    requires i <= j <= |s|
    ensures Covers(s, x) <==> Covers(s[..i], x) || Covers(s[i..j], x) || Covers(s[j..], x)
  {
    assert s == s[..i] + s[i..j] + s[j..];
    CoversParts(s[..i], s[i..j], s[j..], x);
  }

  lemma SpliceCovers(s: seq<Interval>, a: nat, b: nat, lo: nat, hi: nat, m: Interval, x: int)
    requires Canonical(s) && lo <= hi && Touches(s, a, b, lo, hi) && Merged(s, a, b, lo, hi, m)
    ensures Covers(s[..a] + [m] + s[b..], x) <==> Covers(s, x) || lo <= x <= hi
  {
    CoversCuts(s, a, b, x);
    CoversParts(s[..a], [m], s[b..], x);
    var t := s[a..b];
    assert [m][0] == m;
    assert Covers([m], x) <==> m.lo <= x <= m.hi;
    if m.lo <= x <= m.hi && !(lo <= x <= hi) {
      assert if x < lo then t[0].lo <= x <= t[0].hi else t[b - a - 1].lo <= x <= t[b - a - 1].hi;
    }
    if Covers(t, x) {
      var i :| 0 <= i < |t| && t[i].lo <= x <= t[i].hi;
      PairsApart(s);
      assert t[i] == s[a + i] && s[a].lo <= s[a + i].lo && s[a + i].hi <= s[b - 1].hi;
    }
  }

  /** Filling uncovers exactly one number. */
  lemma FillOneMeaning(s: seq<Interval>, x: nat)
    requires Canonical(s)
    ensures Canonical(FillOne(s, x)) && |FillOne(s, x)| <= |s| + 1
    ensures forall y :: Covers(FillOne(s, x), y) <==> Covers(s, y) && y != x
  {
    FirstEndingSplits(s, x);
    var i := FirstEnding(s, x);
    if i < |s| && s[i].lo <= x {
      FillShape(s, x, i);
      AroundCanonical(s[i], x);
      ReplaceCanonical(s, i, i + 1, Around(s[i], x));
      forall y
        ensures Covers(FillOne(s, x), y) <==> Covers(s, y) && y != x
      {
        FillCovers(s, x, i, y);
      }
    } else {
      PairsApart(s);
    }
  }

  /** What is left of an interval around a hole. */
  function Around(t: Interval, x: nat): seq<Interval> {
    if t.lo == t.hi || !(t.lo <= x <= t.hi) then []
    else if x == t.lo then [Interval(x + 1, t.hi)]
    else if x == t.hi then [Interval(t.lo, x - 1)]
    else [Interval(t.lo, x - 1), Interval(x + 1, t.hi)]
  }

  /** Replacing a run of intervals by canonical pieces that stay inside it keeps the form. */
  lemma ReplaceCanonical(s: seq<Interval>, i: nat, j: nat, m: seq<Interval>)
    requires Canonical(s) && Canonical(m) && i < j <= |s| && Within(m, s[i].lo, s[j - 1].hi)
    ensures Canonical(s[..i] + m + s[j..])
  {
    var r := s[..i] + m + s[j..];
    forall x, y | 0 <= x < y < |r|
      ensures Apart(r, x, y)
    {
      if y < i {
        assert Apart(s, x, y);
      } else if y < i + |m| {
        if x < i {
          assert Apart(s, x, i) && s[i].lo <= m[y - i].lo;
        } else {
          assert Apart(m, x - i, y - i);
        }
      } else if x < i {
        assert Apart(s, x, y - i - |m| + j);
      } else if x < i + |m| {
        assert m[x - i].hi <= s[j - 1].hi && Apart(s, j - 1, y - i - |m| + j);
      } else {
        assert Apart(s, x - i - |m| + j, y - i - |m| + j);
      }
    }
  }

  lemma AroundCanonical(t: Interval, x: nat)
    requires t.lo <= x <= t.hi <= MAX_UINT64
    ensures Canonical(Around(t, x)) && Within(Around(t, x), t.lo, t.hi)
  {
  }

  lemma FillShape(s: seq<Interval>, x: nat, i: nat)
    requires i < |s| && s[i].lo <= x <= s[i].hi && FirstEnding(s, x) == i
    ensures FillOne(s, x) == s[..i] + Around(s[i], x) + s[i + 1..]
  {
    var m := Around(s[i], x);
    if |m| == 0 {
      assert s[..i] + m + s[i + 1..] == s[..i] + s[i + 1..];
    } else if |m| == 1 {
      assert s[..i] + m + s[i + 1..] == s[i := m[0]];
    }
  }

  lemma FillCovers(s: seq<Interval>, x: nat, i: nat, y: int)
    requires Canonical(s) && i < |s| && s[i].lo <= x <= s[i].hi
    ensures Covers(s[..i] + Around(s[i], x) + s[i + 1..], y) <==> Covers(s, y) && y != x
  {
    CoversCuts(s, i, i + 1, y);
    CoversParts(s[..i], Around(s[i], x), s[i + 1..], y);
    AroundCovers(s[i], x, y);
    assert s[i..i + 1] == [s[i]] && [s[i]][0] == s[i];
    if y == x {
      PairsApart(s);
      assert forall j :: 0 <= j < |s[..i]| ==> s[..i][j] == s[j];
      var after := s[i + 1..];
      assert forall j :: 0 <= j < |after| ==> after[j] == s[i + 1 + j];
    }
  }

  lemma AroundCovers(t: Interval, x: nat, y: int)
    requires t.lo <= x <= t.hi
    ensures Covers(Around(t, x), y) <==> t.lo <= y <= t.hi && y != x
  {
    var m := Around(t, x);
    if t.lo <= y <= t.hi && y != x {
      var k := if y < x then 0 else |m| - 1;
      assert m[k].lo <= y <= m[k].hi;
    }
  }

  // ---------------------------------------------------------------- the cap

  /** A merge keeps everything covered and adds exactly the hole - 1 numbers between. */
  lemma MergeMeaning(s: seq<Interval>, i: nat)
    requires Canonical(s) && i + 1 < |s|
    ensures Canonical(MergeAt(s, i))
    ensures forall x :: Covers(MergeAt(s, i), x) <==> Covers(s, x) || s[i].hi < x < s[i + 1].lo
    ensures Count(MergeAt(s, i)) == Count(s) + Hole(s, i) - 1
  {
    assert Apart(s, i, i + 1);
    ReplaceCanonical(s, i, i + 2, [Interval(s[i].lo, s[i + 1].hi)]);
    forall x
      ensures Covers(MergeAt(s, i), x) <==> Covers(s, x) || s[i].hi < x < s[i + 1].lo
    {
      MergeCovers(s, i, x);
    }
    MergeCount(s, i);
  }

  lemma {:induction false} MergeCount(s: seq<Interval>, i: nat)
    requires i + 1 < |s|
    ensures Count(MergeAt(s, i)) == Count(s) + Hole(s, i) - 1
  {
    var r := MergeAt(s, i);
    if i == 0 {
      assert r[1..] == s[2..];
      assert s[1..][1..] == s[2..];
    } else {
      MergeCount(s[1..], i - 1);
      assert r[1..] == MergeAt(s[1..], i - 1);
    }
  }

  lemma MergeCovers(s: seq<Interval>, i: nat, x: int)
    requires Canonical(s) && i + 1 < |s|
    ensures Covers(MergeAt(s, i), x) <==> Covers(s, x) || s[i].hi < x < s[i + 1].lo
  {
    var m := Interval(s[i].lo, s[i + 1].hi);
    assert Apart(s, i, i + 1);
    CoversCuts(s, i, i + 2, x);
    CoversParts(s[..i], [m], s[i + 2..], x);
    assert [m][0] == m;
    var t := s[i..i + 2];
    assert t == [s[i], s[i + 1]] && t[0] == s[i] && t[1] == s[i + 1];
  }

  /** The cap never loses a number, and is the only thing that ever adds one. */
  lemma {:induction false} CappedMeaning(g: Gaps, max: nat)
    requires max >= 1 && Canonical(g.intervals)
    ensures Canonical(Capped(g, max).intervals) && |Capped(g, max).intervals| <= max
    ensures forall x :: Covers(g.intervals, x) ==> Covers(Capped(g, max).intervals, x)
    ensures g.truncated ==> Capped(g, max).truncated
    ensures !Capped(g, max).truncated ==> Capped(g, max) == g
    ensures Capped(g, max).truncated <==> g.truncated || |g.intervals| > max
    decreases |g.intervals|
  {
    if |g.intervals| > max {
      var i := Smallest(g.intervals);
      MergeMeaning(g.intervals, i);
      CappedMeaning(MergeOnce(g), max);
    }
  }

  /** Merging stays between the lowest and the highest number covered. */
  lemma {:induction false} CappedStaysWithin(g: Gaps, max: nat, lo: int, hi: int)
    requires max >= 1 && Canonical(g.intervals) && Within(g.intervals, lo, hi)
    ensures Within(Capped(g, max).intervals, lo, hi)
    decreases |g.intervals|
  {
    if |g.intervals| > max {
      MergeOnceCanonical(g);
      CappedStaysWithin(MergeOnce(g), max, lo, hi);
    }
  }

  ghost predicate Within(s: seq<Interval>, lo: int, hi: int) {
    forall i :: 0 <= i < |s| ==> lo <= s[i].lo && s[i].hi <= hi
  }

  /** Every interval holds at least one number. */
  lemma {:induction false} CountAtLeast(s: seq<Interval>)
    requires forall i :: 0 <= i < |s| ==> s[i].lo <= s[i].hi
    ensures Count(s) >= |s|
  {
    if s != [] {
      CountAtLeast(s[1..]);
    }
  }

  /** Counting is the number of numbers covered. */
  lemma {:induction false} CountIsCardinality(s: seq<Interval>, covered: set<int>)
    requires Canonical(s) && forall x :: x in covered <==> Covers(s, x)
    ensures Count(s) == |covered|
  {
    if s == [] {
      assert (forall x :: x !in covered) ==> covered == {};
    } else {
      var first := Range(s[0].lo, s[0].hi);
      forall x
        ensures x in covered - first <==> Covers(s[1..], x)
      {
        TailCovers(s, x);
      }
      TailCanonical(s);
      CountIsCardinality(s[1..], covered - first);
      assert forall x :: x in first ==> Covers(s, x);
      assert covered == (covered - first) + first;
    }
  }

  ghost function Range(lo: int, hi: int): (r: set<int>)
    ensures forall x :: x in r <==> lo <= x <= hi
    ensures lo <= hi + 1 ==> |r| == hi - lo + 1
    decreases hi - lo + 1
  {
    if lo > hi then {} else Range(lo, hi - 1) + {hi}
  }

  /** Numbers confined to a range are counted without overflow. */
  lemma {:induction false} CountWithin(s: seq<Interval>, lo: int, hi: int)
    requires Canonical(s) && Within(s, lo, hi) && lo <= hi + 1
    ensures Count(s) <= hi - lo + 1
  {
    if s != [] {
      TailCanonical(s);
      assert Within(s[1..], s[0].hi + 1, hi);
      CountWithin(s[1..], s[0].hi + 1, hi);
    }
  }

  /** The list is determined by what it covers: a canonical form. */
  lemma {:induction false} CanonicalIsUnique(s: seq<Interval>, t: seq<Interval>)
    requires Canonical(s) && Canonical(t) && forall x :: Covers(s, x) <==> Covers(t, x)
    ensures s == t
  {
    if s != [] && t != [] {
      TailCanonical(s);
      TailCanonical(t);
      assert Covers(s, s[0].lo) && Covers(t, t[0].lo);
      assert s[0].lo == t[0].lo;
      assert Covers(s, s[0].hi) && Covers(t, t[0].hi);
      assert !Covers(s, s[0].hi + 1) && !Covers(t, t[0].hi + 1);
      assert s[0].hi == t[0].hi;
      forall x
        ensures Covers(s[1..], x) <==> Covers(t[1..], x)
      {
        TailCovers(s, x);
        TailCovers(t, x);
      }
      CanonicalIsUnique(s[1..], t[1..]);
      assert s == [s[0]] + s[1..] && t == [t[0]] + t[1..];
    } else if s != [] {
      assert Covers(s, s[0].lo);
    } else if t != [] {
      assert Covers(t, t[0].lo);
    }
  }

  lemma TailCovers(s: seq<Interval>, x: int)
    requires Canonical(s) && s != []
    ensures Covers(s[1..], x) <==> Covers(s, x) && !(s[0].lo <= x <= s[0].hi)
  {
    TailCanonical(s);
    if Covers(s[1..], x) {
      var i :| 0 <= i < |s[1..]| && s[1..][i].lo <= x <= s[1..][i].hi;
      assert s[i + 1].lo <= x <= s[i + 1].hi;
    }
    if Covers(s, x) && !(s[0].lo <= x <= s[0].hi) {
      var i :| 0 <= i < |s| && s[i].lo <= x <= s[i].hi;
      assert s[1..][i - 1] == s[i];
    }
  }

  /** Nothing is lost; and while nothing has been merged, only the range is new. */
  ghost predicate Grown(g: Gaps, max: nat, lo: int, hi: int, r: Gaps) {
    && Canonical(r.intervals) && |r.intervals| <= max
    && (forall x :: Covers(g.intervals, x) || lo <= x <= hi ==> Covers(r.intervals, x))
    && (!r.truncated ==> !g.truncated && forall x :: Covers(r.intervals, x) ==> Covers(g.intervals, x) || lo <= x <= hi)
  }

  lemma AddMeaning(g: Gaps, max: nat, lo: nat, hi: nat)
    requires max >= 1 && Canonical(g.intervals) && lo <= hi <= MAX_UINT64
    ensures Grown(g, max, lo, hi, Add(g, max, lo, hi))
  {
    AddRangeMeaning(g.intervals, lo, hi);
    CappedMeaning(g.(intervals := AddRange(g.intervals, lo, hi)), max);
  }

  lemma AddWithin(g: Gaps, max: nat, lo: nat, hi: nat, a: int, b: int)
    requires max >= 1 && Canonical(g.intervals) && lo <= hi <= MAX_UINT64 && Within(g.intervals, a, lo) && a <= lo
    requires hi <= b
    ensures Within(Add(g, max, lo, hi).intervals, a, b)
  {
    var wide := g.(intervals := AddRange(g.intervals, lo, hi));
    AddRangeMeaning(g.intervals, lo, hi);
    CoveredWithin(wide.intervals, a, b);
    CappedStaysWithin(wide, max, a, b);
  }

  /** Filling removes the number, and only it, while nothing has been merged. */
  lemma FillMeaning(g: Gaps, max: nat, y: nat)
    requires max >= 1 && Canonical(g.intervals)
    ensures var r := Fill(g, max, y);
      && Canonical(r.intervals) && |r.intervals| <= max
      && (forall x :: Covers(g.intervals, x) && x != y ==> Covers(r.intervals, x))
      && (!r.truncated ==> !g.truncated && forall x :: Covers(r.intervals, x) ==> Covers(g.intervals, x) && x != y)
  {
    FillOneMeaning(g.intervals, y);
    CappedMeaning(g.(intervals := FillOne(g.intervals, y)), max);
  }

  lemma FillWithin(g: Gaps, max: nat, y: nat, a: int, b: int)
    requires max >= 1 && Canonical(g.intervals) && Within(g.intervals, a, b)
    ensures Within(Fill(g, max, y).intervals, a, b)
  {
    var narrow := g.(intervals := FillOne(g.intervals, y));
    FillOneMeaning(g.intervals, y);
    CoveredWithin(narrow.intervals, a, b);
    CappedStaysWithin(narrow, max, a, b);
  }

  /** Bounds on the covered numbers are bounds on the intervals. */
  lemma CoveredWithin(s: seq<Interval>, lo: int, hi: int)
    requires Canonical(s) && forall x :: Covers(s, x) ==> lo <= x <= hi
    ensures Within(s, lo, hi)
  {
    forall i | 0 <= i < |s|
      ensures lo <= s[i].lo && s[i].hi <= hi
    {
      assert Covers(s, s[i].lo) && Covers(s, s[i].hi);
    }
  }

  // ---------------------------------------------------------------- whole runs

  datatype GapOp = AddOp(lo: nat, hi: nat) | FillOp(x: nat) | ClearOp

  predicate Legal(op: GapOp) { op.AddOp? ==> op.lo <= op.hi <= MAX_UINT64 }

  ghost function Apply(g: Gaps, max: nat, op: GapOp): Gaps
    requires max >= 1
  {
    match op
    case AddOp(lo, hi) => Add(g, max, lo, hi)
    case FillOp(x) => Fill(g, max, x)
    case ClearOp => Gaps([], false)
  }

  /** The set the operations would leave if nothing were ever merged. */
  ghost function Exactly(missing: set<int>, op: GapOp): set<int> {
    match op
    case AddOp(lo, hi) => missing + Range(lo, hi)
    case FillOp(x) => missing - {x}
    case ClearOp => {}
  }

  /** In canonical form and within the cap; covers everything missing; covers nothing else until
      the cap has forced a merge. */
  ghost predicate Stands(g: Gaps, max: nat, missing: set<int>) {
    && Canonical(g.intervals) && |g.intervals| <= max
    && (forall x :: x in missing ==> Covers(g.intervals, x))
    && (!g.truncated ==> forall x :: Covers(g.intervals, x) ==> x in missing)
  }

  lemma ApplyStands(g: Gaps, max: nat, missing: set<int>, op: GapOp)
    requires max >= 1 && Stands(g, max, missing) && Legal(op)
    ensures Stands(Apply(g, max, op), max, Exactly(missing, op))
  {
    match op
    case AddOp(lo, hi) => AddMeaning(g, max, lo, hi);
    case FillOp(x) => FillMeaning(g, max, x);
    case ClearOp =>
  }

  ghost function RunGaps(g: Gaps, max: nat, ops: seq<GapOp>): Gaps
    requires max >= 1
    decreases |ops|
  {
    if ops == [] then g else RunGaps(Apply(g, max, ops[0]), max, ops[1..])
  }

  ghost function RunExactly(missing: set<int>, ops: seq<GapOp>): set<int>
    decreases |ops|
  {
    if ops == [] then missing else RunExactly(Exactly(missing, ops[0]), ops[1..])
  }

  /** The interval set refines a set of numbers over every run of operations. */
  lemma {:induction false} RunStands(g: Gaps, max: nat, missing: set<int>, ops: seq<GapOp>)
    requires max >= 1 && Stands(g, max, missing) && forall i :: 0 <= i < |ops| ==> Legal(ops[i])
    ensures Stands(RunGaps(g, max, ops), max, RunExactly(missing, ops))
    decreases |ops|
  {
    if ops != [] {
      ApplyStands(g, max, missing, ops[0]);
      RunStands(Apply(g, max, ops[0]), max, Exactly(missing, ops[0]), ops[1..]);
    }
  }

  /** A merge forced by the cap picks the smallest hole there is. */
  lemma CapMergesSmallestHole(s: seq<Interval>, max: nat)
    requires max >= 1 && Canonical(s) && |s| > max
    ensures var i := Smallest(s);
      && Capped(Gaps(s, false), max) == Capped(MergeOnce(Gaps(s, false)), max)
      && MergeOnce(Gaps(s, false)).intervals == MergeAt(s, i)
      && (forall j: nat :: j + 1 < |s| ==> Hole(s, i) <= Hole(s, j))
      && Count(MergeAt(s, i)) == Count(s) + Hole(s, i) - 1
  {
    MergeMeaning(s, Smallest(s));
  }

  // ---------------------------------------------------------------- the implementation

  /** Binary search for the first interval ending at or after x. */
  method SearchEnding(s: seq<Interval>, x: int) returns (i: nat)
    requires Canonical(s)
    ensures i == FirstEnding(s, x) && i <= |s|
  {
    FirstEndingSplits(s, x);
    i := 0;
    var j := |s|;
    while i < j
      invariant i <= FirstEnding(s, x) <= j <= |s|
    {
      var h := (i + j) / 2;
      if s[h].hi < x {
        i := h + 1;
      } else {
        j := h;
      }
    }
  }

  /** One pass over the holes; the first smallest wins. */
  method FindSmallest(s: seq<Interval>) returns (best: nat)
    requires Canonical(s) && |s| >= 2
    ensures best == Smallest(s) && best + 1 < |s|
  {
    best := 0;
    var bestHole := MAX_UINT64;
    var i := 0;
    while i + 1 < |s|
      invariant 0 <= i < |s|
      invariant i == 0 ==> best == 0 && bestHole == MAX_UINT64
      invariant i >= 1 ==> FirstSmallest(s, i, best) && bestHole == Hole(s, best)
    {
      var hole := s[i + 1].lo - s[i].hi;
      assert hole == Hole(s, i) <= MAX_UINT64;
      if hole < bestHole {
        best, bestHole := i, hole;
      }
      i := i + 1;
    }
    OneSmallest(s, |s| - 1, best, Smallest(s));
  }

  lemma OneSmallest(s: seq<Interval>, n: nat, a: nat, b: nat)
    requires FirstSmallest(s, n, a) && FirstSmallest(s, n, b)
    ensures a == b
  {
    assert Hole(s, a) == Hole(s, b);
  }

  method EnforceCap(g: Gaps, max: nat) returns (r: Gaps)
    requires max >= 1 && Canonical(g.intervals)
    ensures r == Capped(g, max)
  {
    r := g;
    ghost var target := Capped(g, max);
    while |r.intervals| > max
      invariant Canonical(r.intervals) && Capped(r, max) == target
      decreases |r.intervals|
    {
      var best := FindSmallest(r.intervals);
      MergeOnceCanonical(r);
      r := Gaps(MergeAt(r.intervals, best), true);
    }
  }

  lemma MergeOnceCanonical(g: Gaps)
    requires |g.intervals| >= 2 && Canonical(g.intervals)
    ensures Canonical(MergeOnce(g).intervals)
    ensures forall lo, hi :: Within(g.intervals, lo, hi) ==> Within(MergeOnce(g).intervals, lo, hi)
  {
    var i := Smallest(g.intervals);
    assert Apart(g.intervals, i, i + 1);
    ReplaceCanonical(g.intervals, i, i + 2, [Interval(g.intervals[i].lo, g.intervals[i + 1].hi)]);
  }

  /** Absorbs every interval that overlaps or abuts [lo, hi] into it. */
  method AbsorbRange(s: seq<Interval>, lo: nat, hi: nat) returns (r: seq<Interval>)
    requires Canonical(s) && lo <= hi <= MAX_UINT64
    ensures r == AddRange(s, lo, hi)
  {
    // From zero there is nothing below to abut.
    var from := if lo == 0 then lo else lo - 1;
    var a := SearchEnding(s, from);
    var b := a;
    while b < |s| && (hi == MAX_UINT64 || s[b].lo <= hi + 1)
      invariant a <= b <= |s| && forall i :: a <= i < b ==> s[i].lo <= hi + 1
    {
      b := b + 1;
    }
    SameBounds(s, lo, hi, a, b);
    if a < b {
      r := s[..a] + [Interval(Min(s[a].lo, lo), Max(s[b - 1].hi, hi))] + s[b..];
    } else {
      r := s[..a] + [Interval(lo, hi)] + s[a..];
    }
  }

  lemma SameBounds(s: seq<Interval>, lo: nat, hi: nat, a: nat, b: nat)
    requires Canonical(s) && lo <= hi <= MAX_UINT64 && a <= b <= |s|
    requires a == FirstEnding(s, if lo == 0 then lo else lo - 1)
    requires forall i :: a <= i < b ==> s[i].lo <= hi + 1
    requires b < |s| ==> s[b].lo > hi + 1
    ensures a == FirstEnding(s, lo - 1) && b == FirstStarting(s, hi + 1)
  {
    FirstEndingSplits(s, if lo == 0 then lo else lo - 1);
    FirstEndingSplits(s, lo - 1);
    FirstStartingSplits(s, hi + 1);
    var top := FirstStarting(s, hi + 1);
    assert a > 0 ==> s[a - 1].hi < lo;
    assert top < |s| ==> s[top].lo > hi + 1;
  }

  lemma AddRangeCanonical(s: seq<Interval>, lo: nat, hi: nat)
    requires Canonical(s) && lo <= hi <= MAX_UINT64
    ensures Canonical(AddRange(s, lo, hi))
  {
    AddRangeMeaning(s, lo, hi);
  }

  lemma FillOneCanonical(s: seq<Interval>, x: nat)
    requires Canonical(s)
    ensures Canonical(FillOne(s, x))
  {
    FillOneMeaning(s, x);
  }

  lemma CappedFits(g: Gaps, max: nat)
    requires max >= 1 && Canonical(g.intervals)
    ensures Canonical(Capped(g, max).intervals) && |Capped(g, max).intervals| <= max
  {
    CappedMeaning(g, max);
  }

  /** Removes one number, splitting its interval when it lies inside. */
  method RemoveNumber(s: seq<Interval>, x: nat) returns (r: seq<Interval>)
    requires Canonical(s)
    ensures r == FillOne(s, x)
  {
    var i := SearchEnding(s, x);
    if i >= |s| || s[i].lo > x {
      r := s;
    } else if s[i].lo == s[i].hi {
      r := s[..i] + s[i + 1..];
    } else if x == s[i].lo {
      r := s[i := Interval(x + 1, s[i].hi)];
    } else if x == s[i].hi {
      r := s[i := Interval(s[i].lo, x - 1)];
    } else {
      r := s[..i] + [Interval(s[i].lo, x - 1), Interval(x + 1, s[i].hi)] + s[i + 1..];
    }
  }

  /** Records [lo, hi] as missing. */
  method AddTo(g: Gaps, max: nat, lo: nat, hi: nat) returns (r: Gaps)
    requires max >= 1 && Canonical(g.intervals) && lo <= hi <= MAX_UINT64
    ensures r == Add(g, max, lo, hi) && Canonical(r.intervals) && |r.intervals| <= max
  {
    var spliced := AbsorbRange(g.intervals, lo, hi);
    AddRangeCanonical(g.intervals, lo, hi);
    CappedFits(g.(intervals := spliced), max);
    r := EnforceCap(g.(intervals := spliced), max);
  }

  /** Removes x; only a split grows the list, so only a split has the cap to enforce. */
  method FillIn(g: Gaps, max: nat, x: nat) returns (r: Gaps)
    requires max >= 1 && Canonical(g.intervals) && |g.intervals| <= max
    ensures r == Fill(g, max, x) && Canonical(r.intervals) && |r.intervals| <= max
  {
    var filled := RemoveNumber(g.intervals, x);
    FillOneCanonical(g.intervals, x);
    CappedFits(g.(intervals := filled), max);
    if |filled| > |g.intervals| {
      r := EnforceCap(g.(intervals := filled), max);
    } else {
      r := g.(intervals := filled);
    }
  }

  method IsMissing(s: seq<Interval>, x: nat) returns (found: bool)
    requires Canonical(s)
    ensures found <==> Covers(s, x)
  {
    var i := SearchEnding(s, x);
    FirstEndingSplits(s, x);
    PairsApart(s);
    found := i < |s| && s[i].lo <= x;
  }

  class GapSet {
    var intervals: seq<Interval>
    var truncated: bool
    const maxIntervals: nat

    ghost predicate Valid()
      reads this
    {
      maxIntervals >= 1 && Canonical(intervals) && |intervals| <= maxIntervals
    }

    ghost function State(): Gaps
      reads this
    {
      Gaps(intervals, truncated)
    }

    constructor (maxIntervals: int)
      ensures Valid() && State() == Gaps([], false)
      ensures this.maxIntervals == if maxIntervals <= 0 then 1024 else maxIntervals
    {
      this.maxIntervals := if maxIntervals <= 0 then 1024 else maxIntervals;
      intervals, truncated := [], false;
    }

    method AddGap(lo: nat, hi: nat)
      requires Valid() && lo <= hi <= MAX_UINT64
      modifies this
      ensures Valid() && State() == Add(old(State()), maxIntervals, lo, hi)
    {
      var r := AddTo(Gaps(intervals, truncated), maxIntervals, lo, hi);
      intervals, truncated := r.intervals, r.truncated;
    }

    method FillGap(x: nat)
      requires Valid()
      modifies this
      ensures Valid() && State() == Fill(old(State()), maxIntervals, x)
    {
      var r := FillIn(Gaps(intervals, truncated), maxIntervals, x);
      intervals, truncated := r.intervals, r.truncated;
    }

    method Contains(x: nat) returns (found: bool)
      requires Valid()
      ensures found <==> Covers(intervals, x)
    {
      found := IsMissing(intervals, x);
    }

    method Total() returns (n: int)
      requires Valid()
      ensures n == Count(intervals)
    {
      n := 0;
      assert intervals[0..] == intervals;
      for i := 0 to |intervals|
        invariant n + Count(intervals[i..]) == Count(intervals)
      {
        assert intervals[i..][1..] == intervals[i + 1..];
        n := n + (intervals[i].hi - intervals[i].lo + 1);
      }
    }

    method Clear()
      requires Valid()
      modifies this
      ensures Valid() && State() == Gaps([], false)
    {
      intervals, truncated := [], false;
    }
  }
}
