/** Every JSON text nested within the limit is scanned to its end, and no deeper one is. */
module JsonCompleteness {
  import opened Events
  import opened JsonScanning
  import opened JsonGrammar

  /** The end of the text, or a byte no value can go on with. */
  predicate Delimited(s: Bytes) {
    s == [] || IsBlank(s[0]) || s[0] == COMMA || s[0] == CLOSE_ARRAY || s[0] == CLOSE_OBJECT
  }

  predicate Solid(s: Bytes) { s == [] || !IsBlank(s[0]) }

  lemma {:induction false} WsSkips(blank: Bytes, s: Bytes)
    requires Blanks(blank) && Solid(s)
    ensures Ws(blank + s) == s
  {
    if blank == [] {
      assert blank + s == s;
    } else {
      assert (blank + s)[1..] == blank[1..] + s;
      WsSkips(blank[1..], s);
    }
  }

  lemma {:induction false} DigitsSkipped(d: Bytes, s: Bytes)
    requires (forall i :: 0 <= i < |d| ==> IsDigit(d[i])) && (s == [] || !IsDigit(s[0]))
    ensures SkipDigits(d + s) == s
  {
    if d == [] {
      assert d + s == s;
    } else {
      assert (d + s)[1..] == d[1..] + s;
      DigitsSkipped(d[1..], s);
    }
  }

  // ---------------------------------------------------------------- strings

  lemma PieceScans(p: Piece, s: Bytes, escaped: bool)
    requires p.Valid()
    ensures StringBody(p.Text() + s, escaped) == StringBody(s, escaped || !p.Raw?)
  {
    var t := p.Text() + s;
    match p
    case Raw(c) => assert t[1..] == s;
    case Short(c) => assert t[2..] == s;
    case Hex(a, b, c, d) =>
      var u := [a, b, c, d] + s;
      assert t[2..] == u;
      assert u[1..] == [b, c, d] + s && u[1..][1..] == [c, d] + s && u[1..][1..][1..] == [d] + s &&
        u[1..][1..][1..][1..] == s;
      HexIsPlain(a, [b, c, d] + s);
      HexIsPlain(b, [c, d] + s);
      HexIsPlain(c, [d] + s);
      HexIsPlain(d, s);
  }

  lemma HexIsPlain(c: Byte, s: Bytes)
    requires IsHex(c)
    ensures StringBody([c] + s, true) == StringBody(s, true)
  {
    assert ([c] + s)[1..] == s;
  }

  lemma {:induction false} PiecesScan(ps: Pieces, s: Bytes, escaped: bool)
    requires ValidPieces(ps)
    ensures StringBody(PiecesText(ps) + ([QUOTE] + s), escaped) == StringEnd(s, escaped || Escaped(ps))
    decreases |ps|
  {
    var q := [QUOTE] + s;
    if ps == [] {
      assert PiecesText(ps) + q == q && q[1..] == s;
    } else {
      assert PiecesText(ps) + q == ps[0].Text() + (PiecesText(ps[1..]) + q);
      PieceScans(ps[0], PiecesText(ps[1..]) + q, escaped);
      PiecesScan(ps[1..], s, escaped || !ps[0].Raw?);
      EscapedFirst(ps);
    }
  }

  lemma EscapedFirst(ps: Pieces)
    requires ps != []
    ensures Escaped(ps) <==> !ps[0].Raw? || Escaped(ps[1..])
  {
    if Escaped(ps) && ps[0].Raw? {
      var i :| 0 <= i < |ps| && !ps[i].Raw?;
      assert ps[1..][i - 1] == ps[i];
    }
    if Escaped(ps[1..]) {
      var i :| 0 <= i < |ps[1..]| && !ps[1..][i].Raw?;
      assert ps[i + 1] == ps[1..][i];
    }
  }

  /** A quoted string is scanned to just past its closing quote. */
  lemma QuotedScans(ps: Pieces, s: Bytes)
    requires ValidPieces(ps)
    ensures ScanString(Quoted(ps) + s) == StringEnd(s, Escaped(ps))
  {
    var t := Quoted(ps) + s;
    assert t[1..] == PiecesText(ps) + ([QUOTE] + s);
    PiecesScan(ps, s, false);
  }

  // ---------------------------------------------------------------- numbers

  predicate NoDigit(s: Bytes) { s == [] || !IsDigit(s[0]) }

  lemma DelimitedNoDigit(s: Bytes)
    requires Delimited(s)
    ensures NoDigit(s)
  {
  }

  lemma ExponentDigits(sign: Bytes, digits: Bytes, s: Bytes, mark: Byte)
    requires Delimited(s) && DigitsOnly(digits) && (sign == [] || sign == [PLUS] || sign == [MINUS])
    requires mark == LOWER_E || mark == UPPER_E
    ensures ScanExponent([mark] + (sign + (digits + s))) == Number(s)
  {
    var t := sign + (digits + s);
    assert ([mark] + t)[1..] == t;
    if sign == [] {
      assert t == digits + s;
    } else {
      assert t[1..] == digits + s;
    }
    DelimitedNoDigit(s);
    DigitsSkipped(digits, s);
  }

  lemma ExponentScans(e: Option<Exponent>, s: Bytes)
    requires Delimited(s) && (e.Some? ==> ValidExponent(e.value))
    ensures ScanExponent(ExponentText(e) + s) == Number(s)
    ensures NoDigit(ExponentText(e) + s) && !Starts(ExponentText(e) + s, DOT)
  {
    if e.None? {
      assert ExponentText(e) + s == s;
    } else {
      var sign := if e.value.sign.Some? then [e.value.sign.value] else [];
      assert ExponentText(e) + s == [e.value.mark] + (sign + (e.value.digits + s));
      ExponentDigits(sign, e.value.digits, s, e.value.mark);
    }
  }

  lemma FractionScans(f: Option<Bytes>, r: Bytes)
    requires (f.Some? ==> DigitsOnly(f.value)) && NoDigit(r) && !Starts(r, DOT)
    ensures ScanFraction(FractionText(f) + r) == ScanExponent(r) && NoDigit(FractionText(f) + r)
  {
    if f.None? {
      assert FractionText(f) + r == r;
    } else {
      assert (FractionText(f) + r)[1..] == f.value + r;
      DigitsSkipped(f.value, r);
    }
  }

  lemma WholeScans(negative: bool, whole: Bytes, r: Bytes)
    requires DigitsOnly(whole) && NoDigit(r)
    ensures ScanNumber((if negative then [MINUS] else []) + (whole + r)) == ScanFraction(r)
  {
    DigitsSkipped(whole, r);
    if negative {
      assert ([MINUS] + (whole + r))[1..] == whole + r;
    } else {
      assert [] + (whole + r) == whole + r;
    }
  }

  /** A number is scanned to the byte that ends it. */
  lemma FigureScans(f: Figure, s: Bytes)
    requires Delimited(s) && ValidFigure(f)
    ensures ScanNumber(FigureText(f) + s) == Number(s)
  {
    ExponentScans(f.exponent, s);
    FractionScans(f.fraction, ExponentText(f.exponent) + s);
    WholeScans(f.negative, f.whole, FractionText(f.fraction) + (ExponentText(f.exponent) + s));
    FigureTextSplit(f, s);
  }

  lemma FigureTextSplit(f: Figure, s: Bytes)
    ensures FigureText(f) + s ==
      (if f.negative then [MINUS] else []) + (f.whole + (FractionText(f.fraction) + (ExponentText(f.exponent) + s)))
  {
  }

  lemma FigureStarts(f: Figure)
    requires ValidFigure(f)
    ensures FigureText(f) != [] && (FigureText(f)[0] == MINUS || IsDigit(FigureText(f)[0]))
  {
    assert !f.negative ==> FigureText(f)[0] == f.whole[0];
  }

  // ---------------------------------------------------------------- values

  /** What the scan of a value must come to. */
  function Expected(rest: Bytes, kind: Kind, escaped: bool, depth: nat, nesting: nat, max: nat): Scan {
    if depth + nesting <= max then Ok(rest, kind, escaped) else Bad(TooDeep)
  }

  lemma WordScans(text: Bytes, kind: Kind, s: Bytes, depth: nat, max: nat)
    requires Valid(Word(text, kind)) && depth <= max
    ensures ScanValue(text + s, depth, max) == Ok(s, kind, false)
  {
    assert (text + s)[..|text|] == text && (text + s)[|text|..] == s;
  }

  /** A value's text starts with something other than a blank or a closing bracket. */
  lemma TextStarts(v: Json)
    requires Valid(v)
    ensures Text(v) != [] && !IsBlank(Text(v)[0]) && Text(v)[0] != CLOSE_ARRAY && Text(v)[0] != CLOSE_OBJECT
  {
    if v.Num? {
      FigureStarts(v.figure);
    }
  }

  lemma {:induction false} WsTwice(s: Bytes)
    ensures Ws(Ws(s)) == Ws(s)
  {
    if s != [] && IsBlank(s[0]) {
      WsTwice(s[1..]);
    }
  }

  /** What follows a value inside a container: blanks, then a comma or the closing bracket. */
  lemma TailDelimits(after: Bytes, tail: Bytes)
    requires Blanks(after) && tail != [] && (tail[0] == COMMA || tail[0] == CLOSE_ARRAY || tail[0] == CLOSE_OBJECT)
    ensures Delimited(after + tail) && Ws(after + tail) == tail
  {
    WsSkips(after, tail);
    if after == [] {
      assert after + tail == tail;
    } else {
      assert (after + tail)[0] == after[0];
    }
  }

  lemma TailStarts(after: Bytes, mark: Byte, more: Bytes, s: Bytes)
    requires Blanks(after) && (mark == COMMA || mark == CLOSE_ARRAY || mark == CLOSE_OBJECT)
    ensures Starts([mark] + more + s, mark) && ([mark] + more + s)[1..] == more + s
    ensures Delimited(after + ([mark] + more + s)) && Ws(after + ([mark] + more + s)) == [mark] + more + s
  {
    TailDelimits(after, [mark] + more + s);
  }

  lemma LeadingBlanks(before: Bytes, v: Json, r: Bytes)
    requires Blanks(before) && Valid(v)
    ensures Ws(before + (Text(v) + r)) == Text(v) + r && Text(v) + r != [] && (Text(v) + r)[0] == Text(v)[0]
  {
    TextStarts(v);
    WsSkips(before, Text(v) + r);
  }

  ghost function ItemsTail(l: Items): Bytes
    requires l.Items?
  {
    if l.rest.NoItems? then [CLOSE_ARRAY] else [COMMA] + ItemsText(l.rest)
  }

  lemma ItemsTextSplit(l: Items, s: Bytes)
    requires l.Items?
    ensures ItemsText(l) + s == l.before + (Text(l.value) + (l.after + (ItemsTail(l) + s)))
  {
  }

  /** One element, and what follows it. */
  lemma ItemStep(t: Bytes, at: Bytes, r: Bytes, tail: Bytes, kind: Kind, escaped: bool, depth: nat, nesting: nat,
      max: nat)
    requires Ws(t) == at && ScanValue(at, depth + 1, max) == Expected(r, kind, escaped, depth + 1, nesting, max)
    requires Ws(r) == tail
    requires Starts(tail, COMMA) || Starts(tail, CLOSE_ARRAY)
    ensures ScanItems(t, depth, max) ==
            if depth + 1 + nesting > max then Bad(TooDeep)
            else if tail[0] == COMMA then ScanItems(tail[1..], depth, max)
            else Ok(tail[1..], IsContainer, false)
  {
  }

  lemma ItemsTailStarts(l: Items, s: Bytes)
    requires l.Items? && ValidItems(l)
    ensures Starts(ItemsTail(l) + s, if l.rest.Items? then COMMA else CLOSE_ARRAY)
    ensures (ItemsTail(l) + s)[1..] == if l.rest.Items? then ItemsText(l.rest) + s else s
    ensures Delimited(l.after + (ItemsTail(l) + s)) && Ws(l.after + (ItemsTail(l) + s)) == ItemsTail(l) + s
  {
    if l.rest.Items? {
      TailStarts(l.after, COMMA, ItemsText(l.rest), s);
    } else {
      TailStarts(l.after, CLOSE_ARRAY, [], s);
      assert [CLOSE_ARRAY] + [] == [CLOSE_ARRAY] && [] + s == s;
    }
  }

  lemma {:induction false} FirstItem(l: Items, s: Bytes, depth: nat, max: nat)
    requires l.Items? && ValidItems(l)
    ensures ScanItems(ItemsText(l) + s, depth, max) ==
            if depth + 1 + Nesting(l.value) > max then Bad(TooDeep)
            else if l.rest.Items? then ScanItems(ItemsText(l.rest) + s, depth, max)
            else Ok(s, IsContainer, false)
    decreases l, 0
  {
    ItemsTextSplit(l, s);
    ItemsTailStarts(l, s);
    LeadingBlanks(l.before, l.value, l.after + (ItemsTail(l) + s));
    ValueScans(l.value, l.after + (ItemsTail(l) + s), depth + 1, max);
    ItemStep(ItemsText(l) + s, Text(l.value) + (l.after + (ItemsTail(l) + s)), l.after + (ItemsTail(l) + s),
      ItemsTail(l) + s, KindOf(l.value), EscapedIn(l.value), depth, Nesting(l.value), max);
  }

  lemma {:induction false} ItemsScan(l: Items, s: Bytes, depth: nat, max: nat)
    requires l.Items? && ValidItems(l)
    ensures ScanItems(ItemsText(l) + s, depth, max) == Expected(s, IsContainer, false, depth, 1 + ItemsNesting(l), max)
    decreases l, 1
  {
    FirstItem(l, s, depth, max);
    if l.rest.Items? {
      ItemsScan(l.rest, s, depth, max);
    }
  }

  lemma {:induction false} ValueScans(v: Json, s: Bytes, depth: nat, max: nat)
    requires Valid(v) && Delimited(s)
    ensures ScanValue(Text(v) + s, depth, max) == Expected(s, KindOf(v), EscapedIn(v), depth, Nesting(v), max)
    decreases v, 3
  {
    if depth <= max {
      match v
      case Word(text, kind) => WordScans(text, kind, s, depth, max);
      case Num(f) =>
        FigureStarts(f);
        FigureScans(f, s);
        NumberValue(FigureText(f) + s, depth, max);
      case Str(ps) => QuotedScans(ps, s);
      case Arr(blank, items) => ArrayScans(blank, items, s, depth, max);
      case Obj(gap, members) => ObjectScans(gap, members, s, depth, max);
    }
  }

  lemma NumberValue(t: Bytes, depth: nat, max: nat)
    requires depth <= max && t != [] && (t[0] == MINUS || IsDigit(t[0]))
    ensures ScanValue(t, depth, max) == ScanNumber(t)
  {
  }

  /** Whether the brackets hold anything decides how the scan goes on. */
  lemma ArrayValue(t: Bytes, depth: nat, max: nat)
    requires depth <= max
    ensures ScanValue([OPEN_ARRAY] + t, depth, max) ==
            if Starts(Ws(t), CLOSE_ARRAY) then Ok(Ws(t)[1..], IsContainer, false) else ScanItems(t, depth, max)
  {
    assert ([OPEN_ARRAY] + t)[1..] == t;
    WsTwice(t);
  }

  lemma {:induction false} ArrayScans(blank: Bytes, items: Items, s: Bytes, depth: nat, max: nat)
    requires Blanks(blank) && ValidItems(items) && depth <= max
    ensures ScanValue(Text(Arr(blank, items)) + s, depth, max) ==
      Expected(s, IsContainer, false, depth, Nesting(Arr(blank, items)), max)
    decreases items, 2
  {
    if items.NoItems? {
      assert Text(Arr(blank, items)) + s == [OPEN_ARRAY] + (blank + ([CLOSE_ARRAY] + s));
      ArrayValue(blank + ([CLOSE_ARRAY] + s), depth, max);
      WsSkips(blank, [CLOSE_ARRAY] + s);
      assert ([CLOSE_ARRAY] + s)[1..] == s;
    } else {
      assert Text(Arr(blank, items)) + s == [OPEN_ARRAY] + (ItemsText(items) + s);
      ArrayValue(ItemsText(items) + s, depth, max);
      ItemsTextSplit(items, s);
      LeadingBlanks(items.before, items.value, items.after + (ItemsTail(items) + s));
      TextStarts(items.value);
      ItemsScan(items, s, depth, max);
    }
  }

  // ---------------------------------------------------------------- objects

  ghost function MembersTail(l: Members): Bytes
    requires l.Members?
  {
    if l.rest.NoMembers? then [CLOSE_OBJECT] else [COMMA] + MembersText(l.rest)
  }

  /** The bytes from a member's value on. */
  ghost function FromValue(l: Members, s: Bytes): Bytes
    requires l.Members?
  {
    Text(l.value) + (l.after + (MembersTail(l) + s))
  }

  lemma MembersTextSplit(l: Members, s: Bytes)
    requires l.Members?
    ensures MembersText(l) + s == l.before + (Quoted(l.name) + (l.colon1 + ([COLON] + (l.colon2 + FromValue(l, s)))))
  {
  }

  /** A name, a colon and the blanks around them. */
  lemma NameScans(before: Bytes, name: Pieces, colon1: Bytes, colon2: Bytes, r: Bytes)
    requires Blanks(before) && ValidPieces(name) && Blanks(colon1) && Blanks(colon2) && Solid(r)
    ensures ScanName(before + (Quoted(name) + (colon1 + ([COLON] + (colon2 + r))))) == StringEnd(r, Escaped(name))
  {
    var c := [COLON] + (colon2 + r);
    WsSkips(before, Quoted(name) + (colon1 + c));
    QuotedScans(name, colon1 + c);
    WsSkips(colon1, c);
    assert c[1..] == colon2 + r;
    WsSkips(colon2, r);
  }

  lemma MemberName(l: Members, s: Bytes)
    requires l.Members? && ValidMembers(l)
    ensures ScanName(MembersText(l) + s) == StringEnd(FromValue(l, s), Escaped(l.name))
  {
    MembersTextSplit(l, s);
    LeadingBlanks([], l.value, l.after + (MembersTail(l) + s));
    TextStarts(l.value);
    NameScans(l.before, l.name, l.colon1, l.colon2, FromValue(l, s));
  }

  /** One member, and what follows it. */
  lemma MemberStep(t: Bytes, at: Bytes, escapedName: bool, r: Bytes, tail: Bytes, kind: Kind, escaped: bool,
      depth: nat, nesting: nat, max: nat)
    requires ScanName(t) == StringEnd(at, escapedName)
    requires ScanValue(at, depth + 1, max) == Expected(r, kind, escaped, depth + 1, nesting, max) && Ws(r) == tail
    requires Starts(tail, COMMA) || Starts(tail, CLOSE_OBJECT)
    ensures ScanMembers(t, depth, max) ==
            if depth + 1 + nesting > max then Bad(TooDeep)
            else if tail[0] == COMMA then ScanMembers(tail[1..], depth, max)
            else Ok(tail[1..], IsContainer, false)
  {
  }

  lemma MembersTailStarts(l: Members, s: Bytes)
    requires l.Members? && ValidMembers(l)
    ensures Starts(MembersTail(l) + s, if l.rest.Members? then COMMA else CLOSE_OBJECT)
    ensures (MembersTail(l) + s)[1..] == if l.rest.Members? then MembersText(l.rest) + s else s
    ensures Delimited(l.after + (MembersTail(l) + s)) && Ws(l.after + (MembersTail(l) + s)) == MembersTail(l) + s
  {
    if l.rest.Members? {
      TailStarts(l.after, COMMA, MembersText(l.rest), s);
    } else {
      TailStarts(l.after, CLOSE_OBJECT, [], s);
      assert [CLOSE_OBJECT] + [] == [CLOSE_OBJECT] && [] + s == s;
    }
  }

  /** A member's value leaves what follows the member. */
  lemma {:induction false} FirstMember(l: Members, s: Bytes, depth: nat, max: nat)
    requires l.Members? && ValidMembers(l)
    ensures ScanMembers(MembersText(l) + s, depth, max) ==
            if depth + 1 + Nesting(l.value) > max then Bad(TooDeep)
            else if l.rest.Members? then ScanMembers(MembersText(l.rest) + s, depth, max)
            else Ok(s, IsContainer, false)
    decreases l, 0
  {
    MemberName(l, s);
    MembersTailStarts(l, s);
    ValueScans(l.value, l.after + (MembersTail(l) + s), depth + 1, max);
    MemberStep(MembersText(l) + s, FromValue(l, s), Escaped(l.name), l.after + (MembersTail(l) + s), MembersTail(l) + s,
               KindOf(l.value), EscapedIn(l.value), depth, Nesting(l.value), max);
  }

  lemma {:induction false} MembersScan(l: Members, s: Bytes, depth: nat, max: nat)
    requires l.Members? && ValidMembers(l)
    ensures ScanMembers(MembersText(l) + s, depth, max) ==
      Expected(s, IsContainer, false, depth, 1 + MembersNesting(l), max)
    decreases l, 1
  {
    FirstMember(l, s, depth, max);
    if l.rest.Members? {
      MembersScan(l.rest, s, depth, max);
    }
  }

  lemma ObjectValue(t: Bytes, depth: nat, max: nat)
    requires depth <= max
    ensures ScanValue([OPEN_OBJECT] + t, depth, max) ==
            if Starts(Ws(t), CLOSE_OBJECT) then Ok(Ws(t)[1..], IsContainer, false) else ScanMembers(t, depth, max)
  {
    assert ([OPEN_OBJECT] + t)[1..] == t;
    WsTwice(t);
    assert ScanName(Ws(t)) == ScanName(t);
    assert ScanMember(Ws(t), depth, max) == ScanMember(t, depth, max);
  }

  /** A member starts with a quote. */
  lemma MembersStart(l: Members, s: Bytes)
    requires l.Members? && ValidMembers(l)
    ensures Starts(Ws(MembersText(l) + s), QUOTE)
  {
    MembersTextSplit(l, s);
    WsSkips(l.before, Quoted(l.name) + (l.colon1 + ([COLON] + (l.colon2 + FromValue(l, s)))));
  }

  lemma {:induction false} ObjectScans(gap: Bytes, members: Members, s: Bytes, depth: nat, max: nat)
    requires Blanks(gap) && ValidMembers(members) && depth <= max
    ensures ScanValue(Text(Obj(gap, members)) + s, depth, max) ==
      Expected(s, IsContainer, false, depth, Nesting(Obj(gap, members)), max)
    decreases members, 2
  {
    if members.NoMembers? {
      assert Text(Obj(gap, members)) + s == [OPEN_OBJECT] + (gap + ([CLOSE_OBJECT] + s));
      ObjectValue(gap + ([CLOSE_OBJECT] + s), depth, max);
      WsSkips(gap, [CLOSE_OBJECT] + s);
      assert ([CLOSE_OBJECT] + s)[1..] == s;
    } else {
      assert Text(Obj(gap, members)) + s == [OPEN_OBJECT] + (MembersText(members) + s);
      ObjectValue(MembersText(members) + s, depth, max);
      MembersStart(members, s);
      MembersScan(members, s, depth, max);
    }
  }
}
