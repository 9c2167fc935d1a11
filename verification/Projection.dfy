/** The three projections that fold an event into a key's value (pkg/projection). Key and member
    templates are the identity. */
module Projections {
  import opened Events
  import opened OracleShard

  datatype Projection = Keyset(delimiter: string, maxMembers: nat) | Scalars | Counters(incrOnly: bool)
  {
    /** What the constructors insist on. */
    predicate Valid() { Keyset? ==> delimiter != "" && maxMembers >= 1 }
  }

  datatype Reason = ShapeMismatch | UnsupportedOp | BadValue

  datatype Outcome = Folded(m: Mutation, saturated: bool) | Refused(why: Reason)

  // ---------------------------------------------------------------- splitting and parsing

  predicate StartsWith(s: string, d: string) { |d| <= |s| && s[..|d|] == d }

  /** The pieces of s between occurrences of d. */
  function Split(s: string, d: string): (r: seq<string>)
    requires d != ""
    ensures |r| >= 1
  {
    if s == "" then [""]
    else if StartsWith(s, d) then [""] + Split(s[|d|..], d)
    else
      var rest := Split(s[1..], d);
      [[s[0]] + rest[0]] + rest[1..]
  }

  function Join(pieces: seq<string>, d: string): string
    requires |pieces| >= 1
  {
    if |pieces| == 1 then pieces[0] else pieces[0] + d + Join(pieces[1..], d)
  }

  lemma JoinFirst(piece: string, rest: seq<string>, d: string)
    requires |rest| >= 1
    ensures Join([piece] + rest, d) == piece + d + Join(rest, d)
  {
    assert ([piece] + rest)[1..] == rest;
  }

  lemma JoinLonger(c: char, rest: seq<string>, d: string)
    requires |rest| >= 1
    ensures Join([[c] + rest[0]] + rest[1..], d) == [c] + Join(rest, d)
  {
    var longer := [[c] + rest[0]] + rest[1..];
    if |rest| > 1 {
      assert longer[1..] == rest[1..];
      assert [c] + rest[0] + d + Join(rest[1..], d) == [c] + (rest[0] + d + Join(rest[1..], d));
    }
  }

  /** Splitting loses nothing. */
  lemma {:induction false} SplitJoins(s: string, d: string)
    requires d != ""
    ensures Join(Split(s, d), d) == s
  {
    if s != "" {
      if StartsWith(s, d) {
        SplitJoins(s[|d|..], d);
        JoinFirst("", Split(s[|d|..], d), d);
        assert s == d + s[|d|..];
      } else {
        SplitJoins(s[1..], d);
        JoinLonger(s[0], Split(s[1..], d), d);
        assert s == [s[0]] + s[1..];
      }
    }
  }

  /** The delimiter begins nowhere in the piece, not even reaching into one that follows it. */
  ghost predicate Clean(piece: string, after: string, d: string) {
    forall i :: 0 <= i < |piece| ==> !StartsWith((piece + after)[i..], d)
  }

  /** Each piece runs up to the first delimiter after it, and the last contains none. */
  ghost predicate CleanPieces(pieces: seq<string>, d: string) {
    |pieces| >= 1 &&
    if |pieces| == 1 then Clean(pieces[0], "", d) else Clean(pieces[0], d, d) && CleanPieces(pieces[1..], d)
  }

  lemma CleanLonger(c: char, piece: string, after: string, d: string)
    requires Clean(piece, after, d) && !StartsWith([c] + piece + after, d)
    ensures Clean([c] + piece, after, d)
  {
    forall i | 0 <= i < |piece| + 1
      ensures !StartsWith(([c] + piece + after)[i..], d)
    {
      if i > 0 {
        assert ([c] + piece + after)[i..] == (piece + after)[i - 1..];
      }
    }
  }

  /** The text begins with the first piece and what comes after it. */
  lemma JoinBegins(pieces: seq<string>, d: string)
    requires |pieces| >= 1
    ensures var after := if |pieces| == 1 then "" else d;
      var text := Join(pieces, d); |pieces[0] + after| <= |text| && text[..|pieces[0] + after|] == pieces[0] + after
  {
    if |pieces| > 1 {
      assert Join(pieces, d) == (pieces[0] + d) + Join(pieces[1..], d);
    }
  }

  lemma {:induction false} SplitIsClean(s: string, d: string)
    requires d != ""
    ensures CleanPieces(Split(s, d), d)
  {
    if s != "" {
      if StartsWith(s, d) {
        var rest := Split(s[|d|..], d);
        SplitIsClean(s[|d|..], d);
        assert ([""] + rest)[1..] == rest;
      } else {
        var rest := Split(s[1..], d);
        SplitIsClean(s[1..], d);
        SplitJoins(s[1..], d);
        JoinBegins(rest, d);
        var after := if |rest| == 1 then "" else d;
        assert s == [s[0]] + s[1..];
        assert s[..1 + |rest[0] + after|] == [s[0]] + rest[0] + after;
        CleanLonger(s[0], rest[0], after, d);
        var longer := [[s[0]] + rest[0]] + rest[1..];
        assert |rest| > 1 ==> longer[1..] == rest[1..];
      }
    }
  }

  /** A delimiter inside the first piece is one that begins in it. */
  lemma BeginsInside(a: seq<string>, d: string, n: nat)
    requires |a| >= 1 && n < |a[0]| && n + |d| <= |Join(a, d)| && Join(a, d)[n..n + |d|] == d
    ensures StartsWith((a[0] + if |a| == 1 then "" else d)[n..], d)
  {
    JoinBegins(a, d);
    var text, begin := Join(a, d), a[0] + if |a| == 1 then "" else d;
    assert begin[n..][..|d|] == text[n..n + |d|];
  }

  /** After the first piece the delimiter follows, if anything does. */
  lemma DelimiterFollows(b: seq<string>, d: string)
    requires |b| >= 1
    ensures |Join(b, d)| >= |b[0]| && (|b| == 1 ==> Join(b, d) == b[0])
    ensures |b| > 1 ==> |b[0]| + |d| <= |Join(b, d)| && Join(b, d)[|b[0]|..|b[0]| + |d|] == d
  {
    JoinBegins(b, d);
    if |b| > 1 {
      assert Join(b, d)[..|b[0] + d|][|b[0]|..] == d;
    }
  }

  lemma FirstPieceNoLonger(a: seq<string>, b: seq<string>, d: string)
    requires d != "" && CleanPieces(a, d) && |b| >= 1 && Join(a, d) == Join(b, d)
    ensures |a[0]| <= |b[0]|
  {
    DelimiterFollows(a, d);
    DelimiterFollows(b, d);
    if |a[0]| > |b[0]| && |b| > 1 {
      BeginsInside(a, d, |b[0]|);
    }
  }

  /** There is only one way to cut a text at its delimiters, from the left. */
  lemma {:induction false} CleanPiecesAreOne(a: seq<string>, b: seq<string>, d: string)
    requires d != "" && CleanPieces(a, d) && CleanPieces(b, d) && Join(a, d) == Join(b, d)
    ensures a == b
    decreases |a|
  {
    FirstPieceNoLonger(a, b, d);
    FirstPieceNoLonger(b, a, d);
    DelimiterFollows(a, d);
    DelimiterFollows(b, d);
    JoinBegins(a, d);
    JoinBegins(b, d);
    assert a[0] == Join(a, d)[..|a[0]|] == b[0];
    if |a| > 1 && |b| > 1 {
      assert Join(a, d)[|a[0]| + |d|..] == Join(a[1..], d);
      assert Join(b, d)[|b[0]| + |d|..] == Join(b[1..], d);
      CleanPiecesAreOne(a[1..], b[1..], d);
      assert a == [a[0]] + a[1..] && b == [b[0]] + b[1..];
    }
  }

  /** Exactly what splitting does: the pieces give the text back and each ends at the first delimiter. */
  lemma SplitIff(s: string, d: string, pieces: seq<string>)
    requires d != ""
    ensures pieces == Split(s, d) <==> CleanPieces(pieces, d) && Join(pieces, d) == s
  {
    SplitJoins(s, d);
    SplitIsClean(s, d);
    if CleanPieces(pieces, d) && Join(pieces, d) == s {
      CleanPiecesAreOne(pieces, Split(s, d), d);
    }
  }

  function Digits(s: string, sofar: nat): Option<nat> {
    if s == "" then Some(sofar)
    else if '0' <= s[0] <= '9' then Digits(s[1..], sofar * 10 + (s[0] - '0') as nat)
    else None
  }

  predicate InInt64(n: int) { MIN_INT64 <= n <= MAX_INT64 }

  /** A decimal 64-bit integer with an optional sign, and nothing else. */
  function ParseInt64(s: string): Option<int> {
    var signed := s != "" && (s[0] == '-' || s[0] == '+');
    var body := if signed then s[1..] else s;
    if body == "" then None
    else
      match Digits(body, 0)
      case None => None
      case Some(n) =>
        var v: int := if signed && s[0] == '-' then -(n as int) else n;
        if InInt64(v) then Some(v) else None
  }

  predicate AllDigits(s: string) { forall i :: 0 <= i < |s| ==> '0' <= s[i] <= '9' }

  /** What a decimal number is worth, read from the right. */
  function Worth(s: string): nat
    requires AllDigits(s)
  {
    if s == "" then 0 else Worth(s[..|s| - 1]) * 10 + (s[|s| - 1] - '0') as nat
  }

  lemma {:induction false} DigitsAppend(s: string, c: char, sofar: nat)
    ensures Digits(s + [c], sofar) ==
      if Digits(s, sofar).Some? && '0' <= c <= '9' then Some(Digits(s, sofar).value * 10 + (c - '0') as nat) else None
    decreases |s|
  {
    if s == "" {
      assert s + [c] == [c] && [c][1..] == "";
      assert Digits("", sofar) == Some(sofar);
      if '0' <= c <= '9' {
        assert Digits("", sofar * 10 + (c - '0') as nat) == Some(sofar * 10 + (c - '0') as nat);
      }
    } else {
      assert (s + [c])[1..] == s[1..] + [c] && (s + [c])[0] == s[0];
      if '0' <= s[0] <= '9' {
        DigitsAppend(s[1..], c, sofar * 10 + (s[0] - '0') as nat);
      }
    }
  }

  lemma {:induction false} DigitsWorth(s: string)
    ensures Digits(s, 0) == if AllDigits(s) then Some(Worth(s)) else None
    decreases |s|
  {
    if s != "" {
      var most, last := s[..|s| - 1], s[|s| - 1];
      assert s == most + [last];
      DigitsWorth(most);
      DigitsAppend(most, last, 0);
    }
  }

  /** Exactly which texts are numbers, and what they are worth: an optional sign, then digits and nothing
      else, at least one, within 64 bits. */
  lemma ParseInt64Iff(s: string)
    ensures var signed := s != "" && (s[0] == '-' || s[0] == '+'); var body := if signed then s[1..] else s;
      && (ParseInt64(s).Some? <==>
            && body != "" && AllDigits(body)
            && (if signed && s[0] == '-' then Worth(body) <= 0x8000_0000_0000_0000
                else Worth(body) <= 0x7FFF_FFFF_FFFF_FFFF))
      && (ParseInt64(s).Some? ==>
            ParseInt64(s).value == (Worth(body) as int) * (if signed && s[0] == '-' then -1 else 1))
  {
    DigitsWorth(if s != "" && (s[0] == '-' || s[0] == '+') then s[1..] else s);
  }

  // ---------------------------------------------------------------- the counter

  /** 64-bit two's complement. */
  function Wrap64(n: int): int {
    (n + 0x8000_0000_0000_0000) % 0x1_0000_0000_0000_0000 - 0x8000_0000_0000_0000
  }

  function AddSaturating(n: int, delta: int): (int, bool) {
    var sum := Wrap64(n + delta);
    if delta > 0 && sum < n then (MAX_INT64, true)
    else if delta < 0 && sum > n then (MIN_INT64, true)
    else (sum, false)
  }

  function Clamp(n: int): int {
    if n > MAX_INT64 then MAX_INT64 else if n < MIN_INT64 then MIN_INT64 else n
  }

  /** The wrapped sum betrays every overflow: the result is the true sum, clamped, and the flag
      says exactly whether clamping was needed. */
  lemma AddSaturatingClamps(n: int, delta: int)
    requires InInt64(n) && InInt64(delta)
    ensures AddSaturating(n, delta) == (Clamp(n + delta), !InInt64(n + delta))
  {
    var s := n + delta;
    assert Wrap64(s) ==
      if s > MAX_INT64 then s - 0x1_0000_0000_0000_0000
      else if s < MIN_INT64 then s + 0x1_0000_0000_0000_0000
      else s;
  }

  // ---------------------------------------------------------------- applying one event

  function MembersOf(v: Value): set<string> { if v.Members? then v.members else {} }

  function TotalOf(v: Value): int { if v.Counter? then v.total else 0 }

  /** The members a delimited value names. */
  function Named(fields: seq<string>): set<string> {
    if fields == [] then {}
    else (if fields[0] == "" then {} else {fields[0]}) + Named(fields[1..])
  }

  /** The members taken up before the cap, and whether a field was turned away. */
  function Taken(fields: seq<string>, members: set<string>, max: nat): (set<string>, bool) {
    if fields == [] then (members, false)
    else if fields[0] == "" then Taken(fields[1..], members, max)
    else if |members| >= max then (members, true)
    else Taken(fields[1..], members + {fields[0]}, max)
  }

  predicate ShapeFits(p: Projection, prev: Value) {
    prev.Absent? || match p
      case Keyset(_, _) => prev.Members?
      case Scalars => prev.Scalar?
      case Counters(_) => prev.Counter?
  }

  function AddMember(key: Key, member: string, prev: Value, max: nat): Mutation {
    var had := MembersOf(prev);
    if member !in had && |had| >= max then Mutation(key, Upsert(prev), true)
    else Mutation(key, Upsert(Members(had + {member})), false)
  }

  function RemoveMember(key: Key, member: string, prev: Value): Mutation {
    var had := MembersOf(prev);
    if member !in had then Mutation(key, Nothing, false)
    else if had - {member} == {} then Mutation(key, Delete, false)
    else Mutation(key, Upsert(Members(had - {member})), false)
  }

  function ReplaceMembers(key: Key, value: string, d: string, max: nat): Mutation
    requires d != ""
  {
    var (members, truncated) := Taken(Split(value, d), {}, max);
    if members == {} then Mutation(key, Delete, false) else Mutation(key, Upsert(Members(members)), truncated)
  }

  function DeleteKey(key: Key, prev: Value): Mutation {
    Mutation(key, if prev.IsAbsent() then Nothing else Delete, false)
  }

  function Apply(p: Projection, prev: Value, e: Event): Outcome
    requires p.Valid()
  {
    if !e.op.TouchesKey() then Folded(Mutation("", Nothing, false), false)
    else if !ShapeFits(p, prev) then Refused(ShapeMismatch)
    else match p
      case Keyset(d, max) => (
        match e.op
        case OpAdd => Folded(AddMember(e.key, e.member, prev, max), false)
        case OpRemove => Folded(RemoveMember(e.key, e.member, prev), false)
        case OpDelete => Folded(DeleteKey(e.key, prev), false)
        case OpSet => Folded(ReplaceMembers(e.key, e.value, d, max), false)
        case _ => Refused(UnsupportedOp))
      case Scalars => (
        match e.op
        case OpSet => Folded(Mutation(e.key, Upsert(Scalar(e.value)), false), false)
        case OpDelete => Folded(DeleteKey(e.key, prev), false)
        case _ => Refused(UnsupportedOp))
      case Counters(incrOnly) =>
        match e.op
        case OpIncr =>
          var (sum, saturated) := AddSaturating(TotalOf(prev), e.delta);
          Folded(Mutation(e.key, Upsert(Counter(sum)), false), saturated)
        case OpSet =>
          if incrOnly then Refused(UnsupportedOp)
          else (match ParseInt64(e.value)
                case None => Refused(BadValue)
                case Some(n) => Folded(Mutation(e.key, Upsert(Counter(n)), false), false))
        case OpDelete => Folded(DeleteKey(e.key, prev), false)
        case _ => Refused(UnsupportedOp)
  }

  /** A delimited value names its pieces that are not empty. */
  lemma {:induction false} NamedIff(fields: seq<string>, f: string)
    ensures f in Named(fields) <==> f in fields && f != ""
    decreases |fields|
  {
    if fields != [] {
      NamedIff(fields[1..], f);
      assert fields == [fields[0]] + fields[1..];
    }
  }

  /** The event asks for something the projection cannot do to a value of this shape. */
  predicate Unsuited(p: Projection, prev: Value, e: Event) {
    match p
    case Keyset(_, _) => !(prev.Absent? || prev.Members?) || e.op == OpIncr
    case Scalars => !(prev.Absent? || prev.Scalar?) || !(e.op == OpSet || e.op == OpDelete)
    case Counters(incrOnly) =>
      || !(prev.Absent? || prev.Counter?) || e.op == OpAdd || e.op == OpRemove
      || (e.op == OpSet && (incrOnly || ParseInt64(e.value) == None))
  }

  /** Exactly when an event is refused, when a fold says that members were turned away, when that a sum was
      clamped, and which key it writes. */
  lemma OutcomeTells(p: Projection, prev: Value, e: Event)
    requires p.Valid() && e.op.TouchesKey()
    ensures var o := Apply(p, prev, e);
      && (o.Refused? <==> Unsuited(p, prev, e))
      && (o.Folded? ==> o.m.key == e.key)
      && (o.Folded? && e.op == OpIncr && InInt64(TotalOf(prev)) && InInt64(e.delta) ==>
            (o.saturated <==> !InInt64(TotalOf(prev) + e.delta)))
      && (o.Folded? && e.op != OpIncr ==> !o.saturated)
      && (o.Folded? && e.op == OpAdd ==>
            (o.m.truncated <==> e.member !in MembersOf(prev) && |MembersOf(prev)| >= p.maxMembers))
      && (o.Folded? && !(p.Keyset? && (e.op == OpSet || e.op == OpAdd)) ==> !o.m.truncated)
  {
    if p.Counters? && e.op == OpIncr && InInt64(TotalOf(prev)) && InInt64(e.delta) {
      AddSaturatingClamps(TotalOf(prev), e.delta);
    }
  }

  // ---------------------------------------------------------------- folding into an oracle

  type State = map<Key, Value>

  function ValueAt(s: State, k: Key): Value { if k in s then s[k] else Absent }

  /** An upsert writes, a delete leaves a tombstone, anything else leaves the oracle alone. */
  function Stored(s: State, o: Outcome): State {
    if o.Refused? || o.m.action.Nothing? then s
    else s[o.m.key := if o.m.action.Upsert? then o.m.action.value else Absent]
  }

  function FoldOne(p: Projection, s: State, e: Event): State
    requires p.Valid()
  {
    Stored(s, Apply(p, ValueAt(s, e.key), e))
  }

  function FoldAll(p: Projection, events: seq<Event>): State
    requires p.Valid()
    decreases |events|
  {
    if events == [] then map[] else FoldOne(p, FoldAll(p, events[..|events| - 1]), events[|events| - 1])
  }

  predicate TruncatedAt(p: Projection, s: State, e: Event)
    requires p.Valid()
  {
    var o := Apply(p, ValueAt(s, e.key), e);
    o.Folded? && o.m.truncated
  }

  /** The member cap never bound along the way. */
  predicate NeverTruncated(p: Projection, events: seq<Event>)
    requires p.Valid()
    decreases |events|
  {
    events == [] ||
    (NeverTruncated(p, events[..|events| - 1]) &&
      !TruncatedAt(p, FoldAll(p, events[..|events| - 1]), events[|events| - 1]))
  }

  /** Rebuilds a member set field by field. */
  method CollectMembers(fields: seq<string>, max: nat) returns (members: set<string>, truncated: bool)
    ensures (members, truncated) == Taken(fields, {}, max)
  {
    members, truncated := {}, false;
    var i := 0;
    while i < |fields|
      invariant 0 <= i <= |fields| && Taken(fields, {}, max) == Taken(fields[i..], members, max)
    {
      if fields[i] != "" {
        if |members| >= max {
          return members, true;
        }
        members := members + {fields[i]};
      }
      i := i + 1;
    }
  }
}

/** The deliberately naive fold every projection is held to (pkg/projection/reference.go). */
module References {
  import opened Events
  import opened Projections

  function Put(s: State, k: Key, v: Option<Value>): State {
    if v.Some? then s[k := v.value] else s - {k}
  }

  function ApplySet(s: State, e: Event, d: string): State
    requires d != ""
  {
    var had := MembersOf(ValueAt(s, e.key));
    match e.op
    case OpDelete => Put(s, e.key, None)
    case OpAdd => PutMembers(s, e.key, had + {e.member})
    case OpRemove => PutMembers(s, e.key, had - {e.member})
    case OpSet => PutMembers(s, e.key, Named(Split(e.value, d)))
    case _ => s
  }

  function PutMembers(s: State, k: Key, members: set<string>): State {
    if members == {} then Put(s, k, None) else Put(s, k, Some(Members(members)))
  }

  function ApplyScalar(s: State, e: Event): State {
    match e.op
    case OpSet => Put(s, e.key, Some(Scalar(e.value)))
    case OpDelete => Put(s, e.key, None)
    case _ => s
  }

  function ApplyCounter(s: State, e: Event, incrOnly: bool): State {
    match e.op
    case OpIncr =>
      var n := TotalOf(ValueAt(s, e.key));
      var sum := Wrap64(n + e.delta);
      Put(s, e.key, Some(Counter(
        if e.delta > 0 && sum < n then MAX_INT64 else if e.delta < 0 && sum > n then MIN_INT64 else sum)))
    case OpSet =>
      if incrOnly then s
      else (match ParseInt64(e.value) case None => s case Some(n) => Put(s, e.key, Some(Counter(n))))
    case OpDelete => Put(s, e.key, None)
    case _ => s
  }

  function Step(p: Projection, s: State, e: Event): State
    requires p.Valid()
  {
    if !e.op.TouchesKey() then s
    else match p
      case Keyset(d, _) => ApplySet(s, e, d)
      case Scalars => ApplyScalar(s, e)
      case Counters(incrOnly) => ApplyCounter(s, e, incrOnly)
  }

  function Steps(p: Projection, events: seq<Event>): State
    requires p.Valid()
    decreases |events|
  {
    if events == [] then map[] else Step(p, Steps(p, events[..|events| - 1]), events[|events| - 1])
  }

  function Present(s: State): State { map k | k in s && !s[k].IsAbsent() :: s[k] }

  /** What the target should contain. */
  function Fold(p: Projection, events: seq<Event>): State
    requires p.Valid()
  {
    Present(Steps(p, events))
  }

  method RunFold(p: Projection, events: seq<Event>) returns (state: State)
    requires p.Valid()
    ensures state == Fold(p, events)
  {
    state := map[];
    for i := 0 to |events|
      invariant state == Steps(p, events[..i])
    {
      assert events[..i + 1][..i] == events[..i];
      if events[i].op.TouchesKey() {
        state := Step(p, state, events[i]);
      }
    }
    assert events[..|events|] == events;
    var keys := state.Keys;
    ghost var all := state;
    while keys != {}
      invariant keys <= all.Keys
      invariant state == map k | k in all && (k in keys || !all[k].IsAbsent()) :: all[k]
      decreases |keys|
    {
      var k :| k in keys;
      if state[k].IsAbsent() {
        state := state - {k};
      }
      keys := keys - {k};
    }
  }

  // ---------------------------------------------------------------- refinement

  /** The oracle holds for every key exactly what the reference does, in the projection's shape. */
  ghost predicate Agrees(p: Projection, s: State, r: State) {
    forall k :: ValueAt(s, k) == ValueAt(r, k) && Sound(p, ValueAt(s, k))
  }

  lemma {:induction false} TakenWithin(fields: seq<string>, members: set<string>, max: nat)
    requires |members| <= max
    ensures var (taken, truncated) := Taken(fields, members, max);
      && members <= taken <= members + Named(fields) && |taken| <= max
      && (truncated ==> |taken| >= max)
      && (!truncated ==> taken == members + Named(fields))
  {
    if fields != [] {
      if fields[0] == "" {
        TakenWithin(fields[1..], members, max);
      } else if |members| < max {
        TakenWithin(fields[1..], members + {fields[0]}, max);
      }
    }
  }

  /** A member to take meets a full set. */
  ghost predicate MeetsFull(fields: seq<string>, members: set<string>, max: nat, i: nat) {
    i < |fields| && fields[i] != "" && |members + Named(fields[..i])| >= max
  }

  lemma MeetsFullLater(fields: seq<string>, members: set<string>, max: nat, i: nat)
    requires fields != []
    ensures var more := if fields[0] == "" then members else members + {fields[0]};
      MeetsFull(fields, members, max, i + 1) <==> MeetsFull(fields[1..], more, max, i)
  {
    if i + 1 < |fields| {
      assert fields[..i + 1][1..] == fields[1..][..i];
      var more := if fields[0] == "" then members else members + {fields[0]};
      assert members + Named(fields[..i + 1]) == more + Named(fields[1..][..i]);
    }
  }

  ghost predicate EverFull(fields: seq<string>, members: set<string>, max: nat) {
    exists i :: MeetsFull(fields, members, max, i)
  }

  lemma EverFullStep(fields: seq<string>, members: set<string>, max: nat)
    requires fields != []
    ensures EverFull(fields, members, max) <==>
      || (fields[0] != "" && |members| >= max)
      || EverFull(fields[1..], if fields[0] == "" then members else members + {fields[0]}, max)
  {
    var more := if fields[0] == "" then members else members + {fields[0]};
    assert members + Named(fields[..0]) == members;
    if fields[0] != "" && |members| >= max {
      assert MeetsFull(fields, members, max, 0);
    } else if EverFull(fields[1..], more, max) {
      var i: nat :| MeetsFull(fields[1..], more, max, i);
      MeetsFullLater(fields, members, max, i);
    } else if EverFull(fields, members, max) {
      var i: nat :| MeetsFull(fields, members, max, i);
      MeetsFullLater(fields, members, max, i - 1);
    }
  }

  /** The flag says that a field met a full set, whether or not it named a member already taken. */
  lemma {:induction false} FlagIff(fields: seq<string>, members: set<string>, max: nat)
    ensures Taken(fields, members, max).1 <==> EverFull(fields, members, max)
    decreases |fields|
  {
    if fields != [] {
      EverFullStep(fields, members, max);
      FlagIff(fields[1..], if fields[0] == "" then members else members + {fields[0]}, max);
    }
  }

  /** The flag is raised although every member was taken exactly when the members are as many as the cap
      and one is named again, or another field follows, once all of them have been taken. */
  lemma SpuriousFlagIff(fields: seq<string>, max: nat)
    ensures var (taken, truncated) := Taken(fields, {}, max);
      && (taken == Named(fields) <==> |Named(fields)| <= max)
      && (truncated && taken == Named(fields) <==>
            |Named(fields)| == max && EverFull(fields, {}, max))
  {
    TakenWithin(fields, {}, max);
    FlagIff(fields, {}, max);
    var taken := Taken(fields, {}, max).0;
    assert {} + Named(fields) == Named(fields);
    SmallerSet(taken, Named(fields));
  }

  lemma SmallerSet(a: set<string>, b: set<string>)
    requires a <= b
    ensures |a| <= |b| && (|a| == |b| ==> a == b)
  {
    assert b == a + (b - a) && |b| == |a| + |b - a|;
  }

  /** Two members, a cap of two, and the first named again: nothing is lost and the flag is raised. */
  lemma RepeatRaisesFlag(a: string, b: string)
    requires a != "" && b != "" && a != b
    ensures Taken([a, b, a], {}, 2) == ({a, b}, true) && Named([a, b, a]) == {a, b}
  {
    assert [a, b, a][1..] == [b, a] && [b, a][1..] == [a] && [a][1..] == [];
    assert Named([a]) == {a} && Named([b, a]) == {b} + {a} && Named([a, b, a]) == {a} + {b, a};
    assert {} + {a} == {a} && {a} + {b} == {a, b} && |{a, b}| == 2 && |{a}| == 1;
    assert Taken([a], {a, b}, 2) == ({a, b}, true);
    assert Taken([b, a], {a}, 2) == ({a, b}, true);
  }

  /** Both sides change the event's own key only. */
  lemma OneKeyAgrees(p: Projection, s: State, r: State, s': State, r': State, k: Key)
    requires Agrees(p, s, r)
    requires forall j :: j != k ==> ValueAt(s', j) == ValueAt(s, j) && ValueAt(r', j) == ValueAt(r, j)
    requires ValueAt(s', k) == ValueAt(r', k) && Sound(p, ValueAt(s', k))
    ensures Agrees(p, s', r')
  {
    forall j
      ensures ValueAt(s', j) == ValueAt(r', j) && Sound(p, ValueAt(s', j))
    {
      if j != k {
        assert ValueAt(s, j) == ValueAt(r, j);
      }
    }
  }

  lemma MutatesOwnKey(p: Projection, v: Value, e: Event)
    requires p.Valid()
    ensures var o := Apply(p, v, e); o.Folded? && !o.m.action.Nothing? ==> o.m.key == e.key
  {
  }

  lemma StepLeaves(p: Projection, r: State, e: Event, j: Key)
    requires p.Valid() && j != e.key
    ensures ValueAt(Step(p, r, e), j) == ValueAt(r, j)
  {
  }

  lemma OthersUntouched(p: Projection, s: State, r: State, e: Event)
    requires p.Valid()
    ensures forall j :: j != e.key ==> ValueAt(FoldOne(p, s, e), j) == ValueAt(s, j)
    ensures forall j :: j != e.key ==> ValueAt(Step(p, r, e), j) == ValueAt(r, j)
  {
    MutatesOwnKey(p, ValueAt(s, e.key), e);
    forall j | j != e.key
      ensures ValueAt(Step(p, r, e), j) == ValueAt(r, j)
    {
      StepLeaves(p, r, e, j);
    }
  }

  ghost predicate Sound(p: Projection, v: Value) {
    ShapeFits(p, v) && !(v.Members? && v.IsAbsent())
  }

  lemma KeysetAgrees(p: Projection, s: State, r: State, e: Event)
    requires p.Valid() && p.Keyset? && ValueAt(s, e.key) == ValueAt(r, e.key) && Sound(p, ValueAt(s, e.key))
    requires !TruncatedAt(p, s, e) && e.op.TouchesKey()
    ensures ValueAt(FoldOne(p, s, e), e.key) == ValueAt(Step(p, r, e), e.key)
    ensures Sound(p, ValueAt(FoldOne(p, s, e), e.key))
  {
    if e.op.OpSet? {
      TakenWithin(Split(e.value, p.delimiter), {}, p.maxMembers);
      assert {} + Named(Split(e.value, p.delimiter)) == Named(Split(e.value, p.delimiter));
    }
  }

  lemma OtherAgrees(p: Projection, s: State, r: State, e: Event)
    requires p.Valid() && !p.Keyset? && ValueAt(s, e.key) == ValueAt(r, e.key) && Sound(p, ValueAt(s, e.key))
    requires e.op.TouchesKey()
    ensures ValueAt(FoldOne(p, s, e), e.key) == ValueAt(Step(p, r, e), e.key)
    ensures Sound(p, ValueAt(FoldOne(p, s, e), e.key))
  {
  }

  lemma StepAgrees(p: Projection, s: State, r: State, e: Event)
    requires p.Valid() && Agrees(p, s, r) && !TruncatedAt(p, s, e) && e.op.TouchesKey()
    ensures Agrees(p, FoldOne(p, s, e), Step(p, r, e))
  {
    assert ValueAt(s, e.key) == ValueAt(r, e.key) && Sound(p, ValueAt(s, e.key));
    if p.Keyset? {
      KeysetAgrees(p, s, r, e);
    } else {
      OtherAgrees(p, s, r, e);
    }
    OthersUntouched(p, s, r, e);
    OneKeyAgrees(p, s, r, FoldOne(p, s, e), Step(p, r, e), e.key);
  }

  lemma {:induction false} FoldAgrees(p: Projection, events: seq<Event>)
    requires p.Valid() && NeverTruncated(p, events)
    ensures Agrees(p, FoldAll(p, events), Steps(p, events))
    decreases |events|
  {
    if events != [] {
      var before, e := events[..|events| - 1], events[|events| - 1];
      FoldAgrees(p, before);
      if e.op.TouchesKey() {
        StepAgrees(p, FoldAll(p, before), Steps(p, before), e);
      }
    }
  }

  /** Folding through the projection gives, for every key, exactly the value of the reference fold,
      so long as the member cap never bound. */
  lemma FoldRefinesReference(p: Projection, events: seq<Event>, k: Key)
    requires p.Valid() && NeverTruncated(p, events)
    ensures ValueAt(FoldAll(p, events), k) == ValueAt(Fold(p, events), k)
  {
    FoldAgrees(p, events);
    assert ValueAt(FoldAll(p, events), k) == ValueAt(Steps(p, events), k);
  }

  // ---------------------------------------------------------------- when the cap binds

  /** The members held are among the real ones, and within the cap. */
  ghost predicate CappedAt(p: Projection, s: State, r: State, k: Key)
    requires p.Keyset?
  {
    && ShapeFits(p, ValueAt(s, k)) && ShapeFits(p, ValueAt(r, k))
    && MembersOf(ValueAt(s, k)) <= MembersOf(ValueAt(r, k)) && |MembersOf(ValueAt(s, k))| <= p.maxMembers
  }

  lemma AddCapped(p: Projection, s: State, r: State, e: Event)
    requires p.Valid() && p.Keyset? && CappedAt(p, s, r, e.key) && e.op.OpAdd?
    ensures CappedAt(p, FoldOne(p, s, e), Step(p, r, e), e.key)
  {
  }

  lemma RemoveCapped(p: Projection, s: State, r: State, e: Event)
    requires p.Valid() && p.Keyset? && CappedAt(p, s, r, e.key) && e.op.OpRemove?
    ensures CappedAt(p, FoldOne(p, s, e), Step(p, r, e), e.key)
  {
    var had := MembersOf(ValueAt(s, e.key));
    if e.member in had {
      assert |had - {e.member}| == |had| - 1;
    }
  }

  lemma SetCapped(p: Projection, s: State, r: State, e: Event)
    requires p.Valid() && p.Keyset? && CappedAt(p, s, r, e.key) && e.op.OpSet?
    ensures CappedAt(p, FoldOne(p, s, e), Step(p, r, e), e.key)
  {
    TakenWithin(Split(e.value, p.delimiter), {}, p.maxMembers);
    assert {} + Named(Split(e.value, p.delimiter)) == Named(Split(e.value, p.delimiter));
  }

  lemma OwnKeyCapped(p: Projection, s: State, r: State, e: Event)
    requires p.Valid() && p.Keyset? && CappedAt(p, s, r, e.key) && e.op.TouchesKey()
    ensures CappedAt(p, FoldOne(p, s, e), Step(p, r, e), e.key)
  {
    match e.op
    case OpAdd => AddCapped(p, s, r, e);
    case OpRemove => RemoveCapped(p, s, r, e);
    case OpSet => SetCapped(p, s, r, e);
    case _ =>
  }

  lemma StepCapped(p: Projection, s: State, r: State, e: Event, k: Key)
    requires p.Valid() && p.Keyset? && CappedAt(p, s, r, k) && CappedAt(p, s, r, e.key)
    ensures CappedAt(p, FoldOne(p, s, e), Step(p, r, e), k)
  {
    OthersUntouched(p, s, r, e);
    if k == e.key && e.op.TouchesKey() {
      OwnKeyCapped(p, s, r, e);
    }
  }

  /** Whatever the cap does, the value held for a key is a subset of the uncapped fold with at most
      the capped number of members. */
  lemma {:induction false} CappedFoldIsSubset(p: Projection, events: seq<Event>, k: Key)
    requires p.Valid() && p.Keyset?
    ensures CappedAt(p, FoldAll(p, events), Steps(p, events), k)
    ensures MembersOf(ValueAt(FoldAll(p, events), k)) <= MembersOf(ValueAt(Fold(p, events), k))
    decreases |events|
  {
    if events != [] {
      var before, e := events[..|events| - 1], events[|events| - 1];
      CappedFoldIsSubset(p, before, k);
      CappedFoldIsSubset(p, before, e.key);
      StepCapped(p, FoldAll(p, before), Steps(p, before), e, k);
    }
  }
}
