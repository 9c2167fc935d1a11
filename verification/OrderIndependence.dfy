/** Where delivery order across publishers cannot matter (pkg/check/check.go:815-822). */
module OrderIndependence {
  import opened Events
  import opened Projections
  import opened References

  // ---------------------------------------------------------------- members owned by publishers

  ghost predicate AddsAndRemoves(events: seq<Event>) {
    forall i :: 0 <= i < |events| ==> events[i].op.OpAdd? || events[i].op.OpRemove?
  }

  /** No two publishers touch the same member of the same key. */
  ghost predicate MembersOwned(events: seq<Event>) {
    forall e, f :: e in events && f in events && e.key == f.key && e.member == f.member ==> e.publisher == f.publisher
  }

  /** One publisher's events, in order. */
  function Stream(events: seq<Event>, publisher: string): seq<Event>
    decreases |events|
  {
    if events == [] then []
    else
      var e := events[|events| - 1];
      Stream(events[..|events| - 1], publisher) + if e.publisher == publisher then [e] else []
  }

  /** The same events in an order that keeps every publisher's own. */
  ghost predicate Interleaves(a: seq<Event>, b: seq<Event>) {
    forall p :: Stream(a, p) == Stream(b, p)
  }

  /** The last thing said about a member of a key. */
  function LastWord(events: seq<Event>, k: Key, m: string): Option<Op>
    decreases |events|
  {
    if events == [] then None
    else
      var e := events[|events| - 1];
      if e.key == k && e.member == m then Some(e.op) else LastWord(events[..|events| - 1], k, m)
  }

  lemma {:induction false} InStream(events: seq<Event>, e: Event)
    ensures e in events <==> e in Stream(events, e.publisher)
    decreases |events|
  {
    if events != [] {
      var before := events[..|events| - 1];
      assert events == before + [events[|events| - 1]];
      InStream(before, e);
    }
  }

  /** Membership is decided by the last word. */
  lemma {:induction false} LastWordDecides(p: Projection, events: seq<Event>, k: Key, m: string)
    requires p.Valid() && p.Keyset? && AddsAndRemoves(events)
    ensures m in MembersOf(ValueAt(Steps(p, events), k)) <==> LastWord(events, k, m) == Some(OpAdd)
    decreases |events|
  {
    if events != [] {
      LastWordDecides(p, events[..|events| - 1], k, m);
    }
  }

  /** The reference never stores an empty set. */
  lemma {:induction false} SetsOnly(p: Projection, events: seq<Event>, k: Key)
    requires p.Valid() && p.Keyset?
    ensures var v := ValueAt(Steps(p, events), k); v.Absent? || (v.Members? && v.members != {})
    decreases |events|
  {
    if events != [] {
      SetsOnly(p, events[..|events| - 1], k);
    }
  }

  /** Only the owner's stream has a say. */
  lemma {:induction false} OwnerHasLastWord(events: seq<Event>, k: Key, m: string, owner: string)
    requires forall e :: e in events && e.key == k && e.member == m ==> e.publisher == owner
    ensures LastWord(events, k, m) == LastWord(Stream(events, owner), k, m)
    decreases |events|
  {
    if events != [] {
      var before, e := events[..|events| - 1], events[|events| - 1];
      assert e in events;
      OwnerHasLastWord(before, k, m, owner);
      if e.publisher == owner {
        assert (Stream(before, owner) + [e])[..|Stream(before, owner)|] == Stream(before, owner);
      } else {
        assert Stream(before, owner) + [] == Stream(before, owner);
      }
    }
  }

  lemma SameEvents(a: seq<Event>, b: seq<Event>, e: Event)
    requires Interleaves(a, b)
    ensures e in a <==> e in b
  {
    InStream(a, e);
    InStream(b, e);
  }

  lemma SameLastWord(a: seq<Event>, b: seq<Event>, k: Key, m: string)
    requires Interleaves(a, b) && MembersOwned(a)
    ensures LastWord(a, k, m) == LastWord(b, k, m)
  {
    forall e
      ensures e in a <==> e in b
    {
      SameEvents(a, b, e);
    }
    var owner := if exists e :: e in a && e.key == k && e.member == m then
      var e :| e in a && e.key == k && e.member == m;
      e.publisher
    else "";
    OwnerHasLastWord(a, k, m, owner);
    OwnerHasLastWord(b, k, m, owner);
  }

  /** Adds and removes whose publishers own their members reach the same sets under every
      interleaving that keeps each publisher's order. */
  lemma InterleavingsAgree(p: Projection, a: seq<Event>, b: seq<Event>, k: Key)
    requires p.Valid() && p.Keyset? && AddsAndRemoves(a) && MembersOwned(a) && Interleaves(a, b)
    ensures ValueAt(Fold(p, a), k) == ValueAt(Fold(p, b), k)
    ensures NeverTruncated(p, a) && NeverTruncated(p, b) ==> ValueAt(FoldAll(p, a), k) == ValueAt(FoldAll(p, b), k)
  {
    forall i | 0 <= i < |b|
      ensures b[i].op.OpAdd? || b[i].op.OpRemove?
    {
      SameEvents(a, b, b[i]);
    }
    SameMembers(p, a, b, k);
    SetsOnly(p, a, k);
    SetsOnly(p, b, k);
    if NeverTruncated(p, a) && NeverTruncated(p, b) {
      FoldRefinesReference(p, a, k);
      FoldRefinesReference(p, b, k);
    }
  }

  lemma SameMembers(p: Projection, a: seq<Event>, b: seq<Event>, k: Key)
    requires p.Valid() && p.Keyset? && AddsAndRemoves(a) && AddsAndRemoves(b) && MembersOwned(a) && Interleaves(a, b)
    ensures MembersOf(ValueAt(Steps(p, a), k)) == MembersOf(ValueAt(Steps(p, b), k))
  {
    forall m
      ensures m in MembersOf(ValueAt(Steps(p, a), k)) <==> m in MembersOf(ValueAt(Steps(p, b), k))
    {
      LastWordDecides(p, a, k, m);
      LastWordDecides(p, b, k, m);
      SameLastWord(a, b, k, m);
    }
  }

  /** Without ownership the order shows: the same member added by one publisher and removed by
      another is there or not according to who came last. */
  lemma SharedMemberDependsOnOrder(p: Projection, add: Event, remove: Event)
    requires p.Valid() && p.Keyset? && add.op.OpAdd? && remove.op.OpRemove?
    requires add.key == remove.key && add.member == remove.member && add.publisher != remove.publisher
    ensures Interleaves([add, remove], [remove, add])
    ensures ValueAt(Fold(p, [add, remove]), add.key) != ValueAt(Fold(p, [remove, add]), add.key)
  {
    forall q
      ensures Stream([add, remove], q) == Stream([remove, add], q)
    {
      assert [add, remove][..1] == [add] && [remove, add][..1] == [remove] && [add][..0] == [] && [remove][..0] == [];
    }
    LastWordDecides(p, [add, remove], add.key, add.member);
    LastWordDecides(p, [remove, add], add.key, add.member);
  }

  // ---------------------------------------------------------------- increments

  ghost predicate Increments(events: seq<Event>) {
    forall i :: 0 <= i < |events| ==> events[i].op.OpIncr? && InInt64(events[i].delta)
  }

  function Gain(e: Event, k: Key): nat { if e.key == k && e.delta > 0 then e.delta else 0 }

  function Loss(e: Event, k: Key): nat { if e.key == k && e.delta < 0 then -e.delta else 0 }

  /** All that is added to a key, and all that is taken from it. */
  function Gains(events: seq<Event>, k: Key): nat
    decreases |events|
  {
    if events == [] then 0 else Gains(events[..|events| - 1], k) + Gain(events[|events| - 1], k)
  }

  function Losses(events: seq<Event>, k: Key): nat
    decreases |events|
  {
    if events == [] then 0 else Losses(events[..|events| - 1], k) + Loss(events[|events| - 1], k)
  }

  predicate Touched(events: seq<Event>, k: Key) { exists e :: e in events && e.key == k }

  lemma TouchedMore(before: seq<Event>, e: Event, k: Key)
    ensures Touched(before + [e], k) <==> Touched(before, k) || e.key == k
  {
    assert forall f :: f in before + [e] <==> f in before || f == e;
    if Touched(before, k) {
      var f :| f in before && f.key == k;
      assert f in before + [e];
    }
    assert e in before + [e];
  }

  lemma IncrementAt(p: Projection, s: State, e: Event, k: Key)
    requires p.Valid() && p.Counters? && e.op.OpIncr? && InInt64(e.delta) && InInt64(TotalOf(ValueAt(s, e.key)))
    ensures ValueAt(Step(p, s, e), k) ==
      if e.key == k then Counter(Clamp(TotalOf(ValueAt(s, k)) + e.delta)) else ValueAt(s, k)
  {
    AddSaturatingClamps(TotalOf(ValueAt(s, e.key)), e.delta);
  }

  /** While both fit in 64 bits, nothing ever saturates and the total is their difference. */
  lemma {:induction false} TotalIsDifference(p: Projection, events: seq<Event>, k: Key)
    requires p.Valid() && p.Counters? && Increments(events) && Gains(events, k) <= MAX_INT64
    requires Losses(events, k) <= -MIN_INT64
    ensures ValueAt(Steps(p, events), k) ==
      if Touched(events, k) then Counter(Gains(events, k) - Losses(events, k)) else Absent
    ensures !Touched(events, k) ==> Gains(events, k) == Losses(events, k) == 0
    decreases |events|
  {
    if events != [] {
      var before, e := events[..|events| - 1], events[|events| - 1];
      assert events == before + [e];
      TotalIsDifference(p, before, k);
      TouchedMore(before, e, k);
      if e.key == k {
        IncrementAt(p, Steps(p, before), e, k);
      }
    }
  }

  lemma {:induction false} GainsSplit(a: seq<Event>, b: seq<Event>, k: Key)
    ensures Gains(a + b, k) == Gains(a, k) + Gains(b, k) && Losses(a + b, k) == Losses(a, k) + Losses(b, k)
    decreases |b|
  {
    if b == [] {
      assert a + b == a;
    } else {
      var before := b[..|b| - 1];
      GainsSplit(a, before, k);
      assert (a + b)[..|a + b| - 1] == a + before;
    }
  }

  /** Taking one event out of the middle takes its part out of the sums. */
  lemma GainsWithout(b: seq<Event>, i: nat, k: Key)
    requires i < |b|
    ensures var rest := b[..i] + b[i + 1..];
      Gains(b, k) == Gains(rest, k) + Gain(b[i], k) && Losses(b, k) == Losses(rest, k) + Loss(b[i], k)
  {
    var e := b[i];
    assert b == b[..i] + [e] + b[i + 1..];
    GainsSplit(b[..i] + [e], b[i + 1..], k);
    GainsSplit(b[..i], b[i + 1..], k);
    assert (b[..i] + [e])[..i] == b[..i];
  }

  lemma BagWithout(b: seq<Event>, i: nat)
    requires i < |b|
    ensures multiset(b[..i] + b[i + 1..]) == multiset(b) - multiset{b[i]}
  {
    assert b == b[..i] + [b[i]] + b[i + 1..];
  }

  /** Sums do not see the order. */
  lemma {:induction false} GainsPermute(a: seq<Event>, b: seq<Event>, k: Key)
    requires multiset(a) == multiset(b)
    ensures Gains(a, k) == Gains(b, k) && Losses(a, k) == Losses(b, k)
    decreases |a|
  {
    if a == [] {
      assert |multiset(b)| == |b|;
    } else {
      var e := a[|a| - 1];
      assert e in multiset(b);
      var i :| 0 <= i < |b| && b[i] == e;
      assert a[..|a| - 1] + a[|a|..] == a[..|a| - 1];
      BagWithout(a, |a| - 1);
      BagWithout(b, i);
      GainsPermute(a[..|a| - 1], b[..i] + b[i + 1..], k);
      GainsWithout(b, i, k);
    }
  }

  /** Increments reach the same total under every permutation, so long as what is added and what is
      taken each fit in 64 bits. */
  lemma PermutationsAgree(p: Projection, a: seq<Event>, b: seq<Event>, k: Key)
    requires p.Valid() && p.Counters? && Increments(a) && multiset(a) == multiset(b)
    requires Gains(a, k) <= MAX_INT64 && Losses(a, k) <= -MIN_INT64
    ensures ValueAt(Fold(p, a), k) == ValueAt(Fold(p, b), k)
    ensures ValueAt(Fold(p, a), k) == if Touched(a, k) then Counter(Gains(a, k) - Losses(a, k)) else Absent
  {
    forall i | 0 <= i < |b|
      ensures b[i].op.OpIncr? && InInt64(b[i].delta)
    {
      assert b[i] in multiset(b);
      assert b[i] in a;
    }
    forall e
      ensures e in a <==> e in b
    {
      assert e in multiset(a) <==> e in multiset(b);
    }
    GainsPermute(a, b, k);
    TotalIsDifference(p, a, k);
    TotalIsDifference(p, b, k);
  }

  /** Beyond 64 bits the order shows: a total pinned at the top forgets how far past it went. */
  lemma SaturationDependsOnOrder(p: Projection, up: Event, down: Event)
    requires p.Valid() && p.Counters? && up.op.OpIncr? && down.op.OpIncr? && up.key == down.key
    requires up.delta == MAX_INT64 && down.delta == -MAX_INT64
    ensures ValueAt(Fold(p, [up, up, down]), up.key) == Counter(0)
    ensures ValueAt(Fold(p, [up, down, up]), up.key) == Counter(MAX_INT64)
  {
    assert [up, up, down][..2] == [up, up] && [up, up][..1] == [up] && [up, down, up][..2] == [up, down] &&
      [up, down][..1] == [up] && [up][..0] == [];
    assert Steps(p, [up]) == map[up.key := Counter(MAX_INT64)];
    assert Steps(p, [up, up]) == map[up.key := Counter(MAX_INT64)];
    assert Steps(p, [up, down]) == map[up.key := Counter(0)];
  }
}
