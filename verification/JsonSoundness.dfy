/** The other half of the scanner's agreement with the grammar: what it accepts is a text of the grammar,
    with nothing after it but blanks. With JsonCapture's completeness, exactly the objects nested within
    the limit are accepted. */
module JsonSoundness {
  import opened Events
  import opened JsonScanning
  import opened JsonGrammar
  import opened JsonCompleteness
  import opened JsonStrings
  import opened JsonCapture

  // ---------------------------------------------------------------- blanks and digits

  /** What was skipped is blank. */
  lemma {:induction false} WsSound(s: Bytes) returns (blanks: Bytes)
    ensures Blanks(blanks) && s == blanks + Ws(s)
    decreases |s|
  {
    blanks := [];
    if s != [] && IsBlank(s[0]) {
      var more := WsSound(s[1..]);
      blanks := [s[0]] + more;
      assert s == [s[0]] + s[1..];
    }
  }

  lemma {:induction false} DigitsSound(s: Bytes) returns (digits: Bytes)
    ensures s == digits + SkipDigits(s) && forall i :: 0 <= i < |digits| ==> IsDigit(digits[i])
    decreases |s|
  {
    digits := [];
    if s != [] && IsDigit(s[0]) {
      var more := DigitsSound(s[1..]);
      digits := [s[0]] + more;
      assert s == [s[0]] + s[1..];
    }
  }

  // ---------------------------------------------------------------- strings

  lemma {:induction false} BodySound(s: Bytes, escaped: bool) returns (ps: Pieces)
    requires StringBody(s, escaped).StringEnd?
    ensures ValidPieces(ps) && s == PiecesText(ps) + ([QUOTE] + StringBody(s, escaped).rest)
    ensures StringBody(s, escaped).escaped == (escaped || Escaped(ps))
    decreases |s|
  {
    if s[0] == QUOTE {
      ps := [];
      assert s == [QUOTE] + s[1..];
    } else {
      var first := if s[0] == BACKSLASH then Short(s[1]) else Raw(s[0]);
      var n := if s[0] == BACKSLASH then 2 else 1;
      var more := BodySound(s[n..], escaped || !first.Raw?);
      ps := [first] + more;
      PieceBefore(first, more);
      assert s == first.Text() + s[n..];
      Regroup(first.Text(), PiecesText(more), [QUOTE] + StringBody(s, escaped).rest);
    }
  }

  lemma PieceBefore(first: Piece, more: Pieces)
    ensures PiecesText([first] + more) == first.Text() + PiecesText(more)
    ensures Escaped([first] + more) <==> !first.Raw? || Escaped(more)
  {
    assert ([first] + more)[1..] == more;
    EscapedFirst([first] + more);
  }

  lemma Regroup(a: Bytes, b: Bytes, c: Bytes)
    ensures a + (b + c) == (a + b) + c
  {
  }

  lemma StringSound(s: Bytes) returns (ps: Pieces)
    requires ScanString(s).StringEnd?
    ensures ValidPieces(ps) && s == Quoted(ps) + ScanString(s).rest && ScanString(s).escaped == Escaped(ps)
  {
    ps := BodySound(s[1..], false);
    assert s == [QUOTE] + s[1..];
    assert Quoted(ps) + ScanString(s).rest == [QUOTE] + (PiecesText(ps) + ([QUOTE] + ScanString(s).rest));
  }

  // ---------------------------------------------------------------- numbers

  lemma ExponentSound(s: Bytes) returns (e: Option<Exponent>)
    requires ScanExponent(s).Ok?
    ensures (e.Some? ==> ValidExponent(e.value)) && s == ExponentText(e) + ScanExponent(s).rest
    ensures ScanExponent(s) == Ok(ScanExponent(s).rest, IsNumber, false)
  {
    e := None;
    if s != [] && (s[0] == LOWER_E || s[0] == UPPER_E) {
      var a := s[1..];
      var signed := a != [] && (a[0] == PLUS || a[0] == MINUS);
      var b := if signed then a[1..] else a;
      var digits := DigitsSound(b);
      e := Some(Exponent(s[0], if signed then Some(a[0]) else None, digits));
      assert s == [s[0]] + a && (signed ==> a == [a[0]] + b);
    } else {
      assert s == [] + s;
    }
  }

  lemma FractionSound(s: Bytes) returns (fraction: Option<Bytes>, e: Option<Exponent>)
    requires ScanFraction(s).Ok?
    ensures (fraction.Some? ==> DigitsOnly(fraction.value)) && (e.Some? ==> ValidExponent(e.value))
    ensures s == FractionText(fraction) + (ExponentText(e) + ScanFraction(s).rest)
    ensures ScanFraction(s) == Ok(ScanFraction(s).rest, IsNumber, false)
  {
    if Starts(s, DOT) {
      var digits;
      digits, e := DotSound(s);
      fraction := Some(digits);
    } else {
      fraction := None;
      e := ExponentSound(s);
      assert s == [] + s;
    }
  }

  lemma DotSound(s: Bytes) returns (digits: Bytes, e: Option<Exponent>)
    requires ScanFraction(s).Ok? && Starts(s, DOT)
    ensures DigitsOnly(digits) && (e.Some? ==> ValidExponent(e.value))
    ensures s == ([DOT] + digits) + (ExponentText(e) + ScanFraction(s).rest)
    ensures ScanFraction(s) == Ok(ScanFraction(s).rest, IsNumber, false)
  {
    digits := DigitsSound(s[1..]);
    var t := SkipDigits(s[1..]);
    e := ExponentSound(t);
    assert s == [DOT] + (digits + t) == ([DOT] + digits) + t;
  }

  lemma NumberSound(s: Bytes) returns (f: Figure)
    requires ScanNumber(s).Ok?
    ensures ValidFigure(f) && s == FigureText(f) + ScanNumber(s).rest
    ensures ScanNumber(s) == Ok(ScanNumber(s).rest, IsNumber, false)
  {
    var negative := Starts(s, MINUS);
    var a := if negative then s[1..] else s;
    var whole := DigitsSound(a);
    var fraction, e := FractionSound(SkipDigits(a));
    f := Figure(negative, whole, fraction, e);
    FigureTextSplit(f, ScanNumber(s).rest);
    assert s == (if negative then [MINUS] else []) + a;
  }

  // ---------------------------------------------------------------- values

  /** The value was scanned from the front of s, at this depth. */
  ghost predicate Scanned(v: Json, s: Bytes, r: Scan, depth: nat, max: nat) {
    && r.Ok? && Valid(v) && s == Text(v) + r.rest && depth + Nesting(v) <= max
    && r.kind == KindOf(v) && r.escaped == EscapedIn(v)
  }

  ghost predicate ItemsScanned(l: Items, s: Bytes, r: Scan, depth: nat, max: nat) {
    && r.Ok? && l.Items? && ValidItems(l) && s == ItemsText(l) + r.rest && depth + 1 + ItemsNesting(l) <= max
    && r.kind == IsContainer && !r.escaped
  }

  ghost predicate MembersScanned(l: Members, s: Bytes, r: Scan, depth: nat, max: nat) {
    && r.Ok? && l.Members? && ValidMembers(l) && s == MembersText(l) + r.rest && depth + 1 + MembersNesting(l) <= max
    && r.kind == IsContainer && !r.escaped
  }

  lemma BlanksJoin(a: Bytes, b: Bytes)
    requires Blanks(a) && Blanks(b)
    ensures Blanks(a + b)
  {
  }

  lemma LiteralSound(s: Bytes, want: Bytes, kind: Kind, depth: nat, max: nat)
    requires want != [] && ScanLiteral(s, want, kind).Ok? && Valid(Word(want, kind)) && depth <= max
    ensures Scanned(Word(want, kind), s, ScanLiteral(s, want, kind), depth, max)
  {
    assert s == s[..|want|] + s[|want|..];
  }

  /** Blanks before the first item belong to it. */
  lemma ItemsAfterBlanks(blanks: Bytes, l: Items, a: Bytes, r: Scan, depth: nat, max: nat)
    requires Blanks(blanks) && ItemsScanned(l, a, r, depth, max)
    ensures ItemsScanned(l.(before := blanks + l.before), blanks + a, r, depth, max)
  {
    BlanksJoin(blanks, l.before);
    var more := l.(before := blanks + l.before);
    var tail := Text(l.value) + (l.after + (if l.rest.NoItems? then [CLOSE_ARRAY] else [COMMA] + ItemsText(l.rest)));
    assert ItemsText(more) == (blanks + l.before) + tail == blanks + (l.before + tail) == blanks + ItemsText(l);
  }

  lemma MembersAfterBlanks(blanks: Bytes, l: Members, a: Bytes, r: Scan, depth: nat, max: nat)
    requires Blanks(blanks) && MembersScanned(l, a, r, depth, max)
    ensures MembersScanned(l.(before := blanks + l.before), blanks + a, r, depth, max)
  {
    BlanksJoin(blanks, l.before);
    var more := l.(before := blanks + l.before);
    MembersTextAfter(blanks, l, more);
  }

  lemma MembersTextAfter(blanks: Bytes, l: Members, more: Members)
    requires l.Members? && more == l.(before := blanks + l.before)
    ensures MembersText(more) == blanks + MembersText(l)
  {
    var tail := Quoted(l.name) + (l.colon1 + ([COLON] + (l.colon2 + (Text(l.value) +
      (l.after + (if l.rest.NoMembers? then [CLOSE_OBJECT] else [COMMA] + MembersText(l.rest)))))));
    assert MembersText(l) == l.before + tail && MembersText(more) == (blanks + l.before) + tail;
    assert (blanks + l.before) + tail == blanks + (l.before + tail);
  }

  lemma {:induction false} ValueSound(s: Bytes, depth: nat, max: nat) returns (v: Json)
    requires ScanValue(s, depth, max).Ok?
    ensures Scanned(v, s, ScanValue(s, depth, max), depth, max)
    decreases |s|, 1
  {
    if s[0] == QUOTE {
      var ps := StringSound(s);
      v := Str(ps);
    } else if s[0] == OPEN_OBJECT {
      v := ObjectSound(s, depth, max);
    } else if s[0] == OPEN_ARRAY {
      v := ArraySound(s, depth, max);
    } else if s[0] == TRUE[0] {
      v := Word(TRUE, IsBool);
      LiteralSound(s, TRUE, IsBool, depth, max);
    } else if s[0] == FALSE[0] {
      v := Word(FALSE, IsBool);
      LiteralSound(s, FALSE, IsBool, depth, max);
    } else if s[0] == NULL[0] {
      v := Word(NULL, IsNull);
      LiteralSound(s, NULL, IsNull, depth, max);
    } else {
      var f := NumberSound(s);
      v := Num(f);
    }
  }

  lemma {:induction false} ArraySound(s: Bytes, depth: nat, max: nat) returns (v: Json)
    requires ScanValue(s, depth, max).Ok? && s[0] == OPEN_ARRAY
    ensures Scanned(v, s, ScanValue(s, depth, max), depth, max)
    decreases |s|, 0
  {
    var a := Ws(s[1..]);
    var blanks := WsSound(s[1..]);
    assert s == [OPEN_ARRAY] + (blanks + a);
    if Starts(a, CLOSE_ARRAY) {
      v := Arr(blanks, NoItems);
      assert a == [CLOSE_ARRAY] + a[1..];
    } else {
      var l := ItemsSound(a, depth, max);
      ItemsAfterBlanks(blanks, l, a, ScanItems(a, depth, max), depth, max);
      v := Arr([], l.(before := blanks + l.before));
    }
  }

  lemma {:induction false} ObjectSound(s: Bytes, depth: nat, max: nat) returns (v: Json)
    requires ScanValue(s, depth, max).Ok? && s[0] == OPEN_OBJECT
    ensures Scanned(v, s, ScanValue(s, depth, max), depth, max)
    decreases |s|, 0
  {
    var a := Ws(s[1..]);
    var blanks := WsSound(s[1..]);
    AfterClose(s, OPEN_OBJECT);
    if Starts(a, CLOSE_OBJECT) {
      v := Obj(blanks, NoMembers);
      AfterClose(a, CLOSE_OBJECT);
      EmptyText(blanks, a[1..]);
    } else {
      var l := MembersSound(a, depth, max);
      MembersAfterBlanks(blanks, l, a, ScanMembers(a, depth, max), depth, max);
      v := Obj([], l.(before := blanks + l.before));
      FilledText(blanks, l, ScanMembers(a, depth, max).rest);
    }
  }

  lemma AfterComma(a: Bytes, text: Bytes, tail: Bytes)
    requires Starts(a, COMMA) && a[1..] == text + tail
    ensures a == ([COMMA] + text) + tail
  {
    assert a == [COMMA] + a[1..];
  }

  lemma ItemsOf(s: Bytes, before: Bytes, v: Json, after: Bytes, a: Bytes, rest: Items, tail: Bytes)
    requires s == before + (Text(v) + (after + a))
    requires a == (if rest.NoItems? then [CLOSE_ARRAY] else [COMMA] + ItemsText(rest)) + tail
    ensures s == ItemsText(Items(before, v, after, rest)) + tail
  {
    var sep := if rest.NoItems? then [CLOSE_ARRAY] else [COMMA] + ItemsText(rest);
    assert before + (Text(v) + (after + (sep + tail))) == (before + (Text(v) + (after + sep))) + tail;
  }

  lemma {:induction false} ItemsSound(s: Bytes, depth: nat, max: nat) returns (l: Items)
    requires ScanItems(s, depth, max).Ok?
    ensures ItemsScanned(l, s, ScanItems(s, depth, max), depth, max)
    decreases |s|, 2
  {
    var before := WsSound(s);
    var scan := ScanValue(Ws(s), depth + 1, max);
    var v := ValueSound(Ws(s), depth + 1, max);
    var after := WsSound(scan.rest);
    var a := Ws(scan.rest);
    var rest := NoItems;
    if Starts(a, COMMA) {
      rest := ItemsSound(a[1..], depth, max);
      AfterComma(a, ItemsText(rest), ScanItems(s, depth, max).rest);
    } else {
      assert a == [CLOSE_ARRAY] + a[1..];
    }
    l := Items(before, v, after, rest);
    ItemsOf(s, before, v, after, a, rest, ScanItems(s, depth, max).rest);
  }

  /** A name, the colon after it and the blanks around that. */
  lemma NameSound(s: Bytes) returns (before: Bytes, name: Pieces, colon1: Bytes, colon2: Bytes)
    requires ScanName(s).StringEnd?
    ensures Blanks(before) && ValidPieces(name) && Blanks(colon1) && Blanks(colon2)
    ensures s == before + (Quoted(name) + (colon1 + ([COLON] + (colon2 + ScanName(s).rest))))
    ensures ScanName(s).escaped == Escaped(name)
  {
    before := WsSound(s);
    name := StringSound(Ws(s));
    var t := ScanString(Ws(s)).rest;
    colon1 := WsSound(t);
    var a := Ws(t);
    colon2 := WsSound(a[1..]);
    assert a == [COLON] + a[1..];
  }

  lemma MembersOf(s: Bytes, before: Bytes, name: Pieces, colon1: Bytes, colon2: Bytes, v: Json, after: Bytes, a: Bytes,
      rest: Members, tail: Bytes)
    requires s == before + (Quoted(name) + (colon1 + ([COLON] + (colon2 + (Text(v) + (after + a))))))
    requires a == (if rest.NoMembers? then [CLOSE_OBJECT] else [COMMA] + MembersText(rest)) + tail
    ensures s == MembersText(Members.Members(before, name, colon1, colon2, v, after, rest)) + tail
  {
    var sep := if rest.NoMembers? then [CLOSE_OBJECT] else [COMMA] + MembersText(rest);
    var x := Text(v) + (after + sep);
    assert Text(v) + (after + (sep + tail)) == x + tail;
    var y := colon1 + ([COLON] + (colon2 + x));
    assert colon1 + ([COLON] + (colon2 + (x + tail))) == y + tail;
    assert before + (Quoted(name) + (y + tail)) == (before + (Quoted(name) + y)) + tail;
  }

  /** One member: its name, its value, and the blanks after it. */
  ghost predicate MemberScanned(s: Bytes, before: Bytes, name: Pieces, colon1: Bytes, colon2: Bytes, v: Json,
      after: Bytes, a: Bytes, depth: nat, max: nat) {
    && Blanks(before) && ValidPieces(name) && Blanks(colon1) && Blanks(colon2) && Valid(v) && Blanks(after)
    && depth + Nesting(v) <= max
    && s == before + (Quoted(name) + (colon1 + ([COLON] + (colon2 + (Text(v) + (after + a))))))
  }

  lemma {:induction false} MemberSound(s: Bytes, depth: nat, max: nat)
    returns (before: Bytes, name: Pieces, colon1: Bytes, colon2: Bytes, v: Json, after: Bytes)
    requires ScanName(s).StringEnd? && ScanValue(ScanName(s).rest, depth, max).Ok?
    ensures var a := Ws(ScanValue(ScanName(s).rest, depth, max).rest);
      MemberScanned(s, before, name, colon1, colon2, v, after, a, depth, max)
    decreases |s|, 2
  {
    before, name, colon1, colon2 := NameSound(s);
    var at := ScanName(s).rest;
    v := ValueSound(at, depth, max);
    after := WsSound(ScanValue(at, depth, max).rest);
  }

  /** A member and the members after it. */
  lemma MembersFrom(s: Bytes, before: Bytes, name: Pieces, colon1: Bytes, colon2: Bytes, v: Json, after: Bytes,
      a: Bytes, rest: Members, tail: Bytes, depth: nat, max: nat)
    requires MemberScanned(s, before, name, colon1, colon2, v, after, a, depth, max)
    requires ValidMembers(rest) && depth + MembersNesting(rest) <= max
    requires a == (if rest.NoMembers? then [CLOSE_OBJECT] else [COMMA] + MembersText(rest)) + tail
    ensures var l := Members.Members(before, name, colon1, colon2, v, after, rest);
      ValidMembers(l) && s == MembersText(l) + tail && depth + MembersNesting(l) <= max
  {
    MembersOf(s, before, name, colon1, colon2, v, after, a, rest, tail);
  }

  lemma {:induction false} MembersSound(s: Bytes, depth: nat, max: nat) returns (l: Members)
    requires ScanMembers(s, depth, max).Ok?
    ensures MembersScanned(l, s, ScanMembers(s, depth, max), depth, max)
    decreases |s|, 3
  {
    var before, name, colon1, colon2, v, after := MemberSound(s, depth + 1, max);
    var a := Ws(ScanValue(ScanName(s).rest, depth + 1, max).rest);
    var tail, rest := ScanMembers(s, depth, max).rest, NoMembers;
    if Starts(a, COMMA) {
      rest := MembersSound(a[1..], depth, max);
      AfterComma(a, MembersText(rest), tail);
    } else {
      AfterClose(a, CLOSE_OBJECT);
    }
    l := Members.Members(before, name, colon1, colon2, v, after, rest);
    MembersFrom(s, before, name, colon1, colon2, v, after, a, rest, tail, depth + 1, max);
  }

  lemma AfterClose(a: Bytes, c: Byte)
    requires Starts(a, c)
    ensures a == [c] + a[1..]
  {
  }

  // ---------------------------------------------------------------- the whole payload

  /** The members of an accepted payload, with blanks after the last bracket. */
  ghost predicate TopScanned(l: Members, trail: Bytes, s: Bytes, max: nat) {
    l.Members? && ValidMembers(l) && Blanks(trail) && s == MembersText(l) + trail && MembersNesting(l) <= max
  }

  lemma EofSound(s: Bytes, caps: Captures)
    requires Eof(s, caps).Captured?
    ensures Blanks(s)
  {
    var blanks := WsSound(s);
    assert s == blanks;
  }

  lemma {:induction false} TopMembersSound(s: Bytes, names: Names, max: nat, caps: Captures)
    returns (l: Members, trail: Bytes)
    requires ScanTopMembers(s, names, max, caps).Captured?
    ensures TopScanned(l, trail, s, max)
    decreases |s|
  {
    var before, name, colon1, colon2, v, after := MemberSound(s, 0, max);
    var a := Ws(ScanValue(ScanName(s).rest, 0, max).rest);
    var caps', rest := TopMember(s, names, max, caps).caps, NoMembers;
    if Starts(a, COMMA) {
      rest, trail := TopMembersSound(a[1..], names, max, caps');
      AfterComma(a, MembersText(rest), trail);
    } else {
      trail := a[1..];
      EofSound(trail, caps');
      AfterClose(a, CLOSE_OBJECT);
    }
    l := Members.Members(before, name, colon1, colon2, v, after, rest);
    MembersFrom(s, before, name, colon1, colon2, v, after, a, rest, trail, 0, max);
  }

  /** An object of the grammar, nested within the limit, with blanks around it. */
  ghost predicate IsPayload(b: Bytes, max: nat) {
    exists lead, gap, members, trail :: Payload(b, lead, gap, members, trail, max)
  }

  ghost predicate Payload(b: Bytes, lead: Bytes, gap: Bytes, members: Members, trail: Bytes, max: nat) {
    && Blanks(lead) && Blanks(trail) && Valid(Obj(gap, members)) && MembersNesting(members) <= max
    && b == lead + (Text(Obj(gap, members)) + trail)
  }

  lemma EmptyText(gap: Bytes, trail: Bytes)
    ensures Text(Obj(gap, NoMembers)) + trail == [OPEN_OBJECT] + (gap + ([CLOSE_OBJECT] + trail))
  {
  }

  lemma FilledText(gap: Bytes, l: Members, trail: Bytes)
    requires l.Members?
    ensures Text(Obj([], l.(before := gap + l.before))) + trail == [OPEN_OBJECT] + (gap + (MembersText(l) + trail))
  {
    MembersTextAfter(gap, l, l.(before := gap + l.before));
    Regroup([OPEN_OBJECT], gap + MembersText(l), trail);
    Regroup(gap, MembersText(l), trail);
  }

  lemma EmptyTopSound(b: Bytes, lead: Bytes, gap: Bytes, c: Bytes, max: nat)
    requires Blanks(lead) && Blanks(gap) && Starts(c, CLOSE_OBJECT) && Blanks(c[1..])
    requires b == lead + ([OPEN_OBJECT] + (gap + c))
    ensures Payload(b, lead, gap, NoMembers, c[1..], max)
  {
    assert c == [CLOSE_OBJECT] + c[1..];
    EmptyText(gap, c[1..]);
  }

  lemma FilledTopSound(b: Bytes, lead: Bytes, gap: Bytes, l: Members, trail: Bytes, c: Bytes, max: nat)
    requires Blanks(lead) && Blanks(gap) && TopScanned(l, trail, c, max)
    requires b == lead + ([OPEN_OBJECT] + (gap + c))
    ensures Payload(b, lead, [], l.(before := gap + l.before), trail, max)
  {
    BlanksJoin(gap, l.before);
    FilledText(gap, l, trail);
  }

  lemma TopSound(b: Bytes, names: Names, max: nat)
    requires ScanTop(b, names, max).Captured?
    ensures IsPayload(b, max)
  {
    var lead := WsSound(b);
    var a := Ws(b);
    var gap := WsSound(a[1..]);
    var c := Ws(a[1..]);
    assert a == [OPEN_OBJECT] + (gap + c);
    if Starts(c, CLOSE_OBJECT) {
      EofSound(c[1..], map[]);
      EmptyTopSound(b, lead, gap, c, max);
    } else {
      var l, trail := TopMembersSound(c, names, max, map[]);
      FilledTopSound(b, lead, gap, l, trail, c, max);
    }
  }

  /** Exactly which payloads are accepted: one object of the grammar, nested within the limit, and nothing
      before or after it but blanks. Every other text is refused. */
  lemma AcceptedIff(b: Bytes, names: Names, max: nat)
    ensures ScanTop(b, names, max).Captured? <==> IsPayload(b, max)
  {
    if ScanTop(b, names, max).Captured? {
      TopSound(b, names, max);
    } else if IsPayload(b, max) {
      var lead, gap, members, trail :| Payload(b, lead, gap, members, trail, max);
      TopScans(lead, gap, members, trail, names, max);
    }
  }
}
