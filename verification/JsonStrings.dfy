/** Decoding the escapes of a string, and the round trip. */
module JsonStrings {
  import opened Events
  import opened JsonScanning
  import opened JsonGrammar
  import opened JsonCompleteness

  const REPLACEMENT: nat := 0xFFFD

  function HexDigit(c: Byte): Option<nat> {
    if IsDigit(c) then Some(c - ZERO)
    else if 0x61 <= c <= 0x66 then Some(c - 0x61 + 10)
    else if 0x41 <= c <= 0x46 then Some(c - 0x41 + 10)
    else None
  }

  /** Four hexadecimal digits. */
  function Hex4(s: Bytes): Option<nat>
    requires |s| == 4
  {
    match (HexDigit(s[0]), HexDigit(s[1]), HexDigit(s[2]), HexDigit(s[3]))
    case (Some(a), Some(b), Some(c), Some(d)) => Some(((a * 16 + b) * 16 + c) * 16 + d)
    case _ => None
  }

  predicate IsSurrogate(r: nat) { 0xD800 <= r < 0xE000 }

  predicate IsPair(hi: nat, lo: nat) { 0xD800 <= hi < 0xDC00 && 0xDC00 <= lo < 0xE000 }

  function Joined(hi: nat, lo: nat): nat
    requires IsPair(hi, lo)
  {
    (hi - 0xD800) * 0x400 + (lo - 0xDC00) + 0x10000
  }

  function Utf8(r: nat): Bytes {
    if r < 0x80 then [r]
    else if r < 0x800 then [0xC0 + r / 0x40, 0x80 + r % 0x40]
    else if r < 0x10000 then [0xE0 + r / 0x1000, 0x80 + r / 0x40 % 0x40, 0x80 + r % 0x40]
    else if r < 0x110000 then [0xF0 + r / 0x40000, 0x80 + r / 0x1000 % 0x40, 0x80 + r / 0x40 % 0x40, 0x80 + r % 0x40]
    else [0xEF, 0xBF, 0xBD]
  }

  datatype Decoded = Rune(r: nat, consumed: nat) | NotHex

  /** From the 'u' on: one escape, or two that form a surrogate pair. A lone surrogate is replaced. */
  function DecodeUnicode(s: Bytes): (d: Decoded)
    ensures d.Rune? ==> 1 <= d.consumed <= |s|
  {
    if |s| < 5 then NotHex
    else match Hex4(s[1..5])
      case None => NotHex
      case Some(first) =>
        if !IsSurrogate(first) then Rune(first, 5)
        else if |s| >= 11 && s[5] == BACKSLASH && s[6] == LOWER_U then
          (match Hex4(s[7..11])
           case None => NotHex
           case Some(second) => if IsPair(first, second) then Rune(Joined(first, second), 11) else Rune(REPLACEMENT, 5))
        else Rune(REPLACEMENT, 5)
  }

  function ShortValue(c: Byte): Byte
    requires IsShort(c)
  {
    if c == 0x62 then 0x08
    else if c == 0x66 then 0x0C
    else if c == 0x6E then 0x0A
    else if c == 0x72 then 0x0D
    else if c == 0x74 then 0x09
    else c
  }

  function After(first: Bytes, rest: Option<Bytes>): Option<Bytes> {
    if rest.Some? then Some(first + rest.value) else None
  }

  function Unescape(s: Bytes): Option<Bytes>
    decreases |s|
  {
    if s == [] then Some([])
    else if s[0] != BACKSLASH then After([s[0]], Unescape(s[1..]))
    else if |s| < 2 then None
    else if IsShort(s[1]) then After([ShortValue(s[1])], Unescape(s[2..]))
    else if s[1] == LOWER_U then
      (match DecodeUnicode(s[1..])
       case NotHex => None
       case Rune(r, consumed) => After(Utf8(r), Unescape(s[1 + consumed..])))
    else None
  }

  // ---------------------------------------------------------------- what a written string means

  function Code(p: Piece): nat
    requires p.Hex? && p.Strict()
  {
    Hex4([p.d1, p.d2, p.d3, p.d4]).value
  }

  /** The bytes a string stands for (RFC 8259, section 7); a lone surrogate stands for U+FFFD. */
  function Meaning(ps: Pieces): Bytes
    requires StrictPieces(ps)
    decreases |ps|
  {
    if ps == [] then []
    else match ps[0]
      case Raw(c) => [c] + Meaning(ps[1..])
      case Short(c) => [ShortValue(c)] + Meaning(ps[1..])
      case Hex(_, _, _, _) =>
        var r := Code(ps[0]);
        if !IsSurrogate(r) then Utf8(r) + Meaning(ps[1..])
        else if |ps| >= 2 && ps[1].Hex? && IsPair(r, Code(ps[1])) then Utf8(Joined(r, Code(ps[1]))) + Meaning(ps[2..])
        else Utf8(REPLACEMENT) + Meaning(ps[1..])
  }

  lemma TextFirst(ps: Pieces)
    requires ps != []
    ensures PiecesText(ps) == ps[0].Text() + PiecesText(ps[1..])
  {
  }

  /** Another hexadecimal escape follows exactly when the next piece is one. */
  lemma NextEscape(ps: Pieces, t: Bytes)
    requires StrictPieces(ps) && t == PiecesText(ps)
    ensures |t| >= 2 && t[0] == BACKSLASH && t[1] == LOWER_U <==> ps != [] && ps[0].Hex?
    ensures ps != [] && ps[0].Hex? ==> |t| >= 6 && t[2..6] == [ps[0].d1, ps[0].d2, ps[0].d3, ps[0].d4]
  {
    if ps != [] {
      TextFirst(ps);
      var first := ps[0].Text();
      assert t[0] == first[0];
      assert |first| >= 2 ==> t[1] == first[1];
    }
  }

  lemma HexDecodes(p: Piece, ps: Pieces)
    requires p.Hex? && p.Strict() && StrictPieces(ps)
    ensures var s := p.Text()[1..] + PiecesText(ps);
      DecodeUnicode(s) ==
        if !IsSurrogate(Code(p)) then Rune(Code(p), 5)
        else if ps != [] && ps[0].Hex? && IsPair(Code(p), Code(ps[0])) then Rune(Joined(Code(p), Code(ps[0])), 11)
        else Rune(REPLACEMENT, 5)
  {
    var t := PiecesText(ps);
    var s := p.Text()[1..] + t;
    assert s[1..5] == [p.d1, p.d2, p.d3, p.d4];
    assert s[5..] == t;
    NextEscape(ps, t);
    if |t| >= 2 {
      assert s[5] == t[0] && s[6] == t[1];
    }
    if |t| >= 6 {
      assert s[7..11] == t[2..6];
    }
  }

  lemma HexUnescapes(p: Piece, t: Bytes, r: nat, consumed: nat)
    requires p.Hex? && DecodeUnicode(p.Text()[1..] + t) == Rune(r, consumed)
    ensures Unescape(p.Text() + t) == After(Utf8(r), Unescape((p.Text() + t)[1 + consumed..]))
  {
    var s := p.Text() + t;
    assert s[0] == BACKSLASH && s[1] == LOWER_U && s[1..] == p.Text()[1..] + t;
  }

  lemma PlainUnescapes(p: Piece, t: Bytes)
    requires p.Strict() && !p.Hex?
    ensures Unescape(p.Text() + t) == After([if p.Raw? then p.c else ShortValue(p.c)], Unescape(t))
  {
    var s := p.Text() + t;
    if p.Raw? {
      assert s[0] == p.c && s[1..] == t;
    } else {
      assert s[0] == BACKSLASH && s[1] == p.c && s[2..] == t;
    }
  }

  /** Decoding gives exactly what the string means, surrogate pairs and all. */
  lemma {:induction false} UnescapeMeaning(ps: Pieces)
    requires StrictPieces(ps)
    ensures Unescape(PiecesText(ps)) == Some(Meaning(ps))
    decreases |ps|
  {
    if ps != [] {
      var t := PiecesText(ps[1..]);
      TextFirst(ps);
      UnescapeMeaning(ps[1..]);
      if ps[0].Hex? {
        HexMeaning(ps);
      } else {
        PlainUnescapes(ps[0], t);
      }
    }
  }

  lemma {:induction false} HexMeaning(ps: Pieces)
    requires StrictPieces(ps) && ps != [] && ps[0].Hex? && Unescape(PiecesText(ps[1..])) == Some(Meaning(ps[1..]))
    ensures Unescape(PiecesText(ps)) == Some(Meaning(ps))
    decreases |ps|, 0
  {
    var p, t := ps[0], PiecesText(ps[1..]);
    TextFirst(ps);
    HexDecodes(p, ps[1..]);
    var d := DecodeUnicode(p.Text()[1..] + t);
    HexUnescapes(p, t, d.r, d.consumed);
    if d.consumed == 5 {
      SkipHex(p, t);
    } else {
      assert ps[1..][1..] == ps[2..];
      TextFirst(ps[1..]);
      UnescapeMeaning(ps[2..]);
      SkipPair(p, ps[1], PiecesText(ps[2..]));
    }
  }

  lemma SkipHex(p: Piece, t: Bytes)
    requires p.Hex?
    ensures (p.Text() + t)[6..] == t
  {
  }

  lemma SkipPair(p: Piece, q: Piece, t: Bytes)
    requires p.Hex? && q.Hex?
    ensures (p.Text() + (q.Text() + t))[12..] == t
  {
    var s := q.Text() + t;
    assert (p.Text() + s)[12..] == s[6..];
    SkipHex(q, t);
  }

  /** Without escapes a string means what it says. */
  lemma {:induction false} RawMeaning(ps: Pieces)
    requires StrictPieces(ps) && !Escaped(ps)
    ensures Meaning(ps) == PiecesText(ps)
    decreases |ps|
  {
    if ps != [] {
      EscapedFirst(ps);
      RawMeaning(ps[1..]);
    }
  }

  // ---------------------------------------------------------------- escapes in numbers

  lemma EscapeAlone(c: Byte)
    ensures Unescape([BACKSLASH, c]) == if IsShort(c) then Some([ShortValue(c)]) else None
  {
    var s := [BACKSLASH, c];
    assert s[2..] == [] && s[1..] == [c];
    assert Unescape(s[2..]) == Some([]);
    if IsShort(c) {
      assert [ShortValue(c)] + [] == [ShortValue(c)];
    }
  }

  /** What each two-character escape stands for: the quote, the backslash and the slash for themselves, the
      letters b, f, n, r and t for a backspace, a form feed, a line feed, a carriage return and a tab. A
      backslash before anything else is no escape. */
  lemma ShortTells(c: Byte)
    ensures Unescape([BACKSLASH, c]) ==
      if c == 0x22 || c == 0x5C || c == 0x2F then Some([c])
      else if c == 0x62 then Some([0x08])
      else if c == 0x66 then Some([0x0C])
      else if c == 0x6E then Some([0x0A])
      else if c == 0x72 then Some([0x0D])
      else if c == 0x74 then Some([0x09])
      else None
  {
    EscapeAlone(c);
  }

  /** The value of a hexadecimal digit, in either case. */
  predicate HexValue(c: Byte, n: nat) {
    || (0x30 <= c <= 0x39 && n == c - 0x30)
    || (0x61 <= c <= 0x66 && n == c - 0x57)
    || (0x41 <= c <= 0x46 && n == c - 0x37)
  }

  /** Four hexadecimal digits are worth what they say, most significant first. */
  lemma CodeTells(p: Piece, a: nat, b: nat, c: nat, d: nat)
    requires p.Hex? && p.Strict() && HexValue(p.d1, a) && HexValue(p.d2, b) && HexValue(p.d3, c) && HexValue(p.d4, d)
    ensures Code(p) == 0x1000 * a + 0x100 * b + 0x10 * c + d
  {
  }

  /** A surrogate pair stands for the code point it splits: ten bits from each half, above 0x10000. */
  lemma JoinedTells(r: nat)
    requires 0x10000 <= r < 0x110000
    ensures var hi, lo := 0xD800 + (r - 0x10000) / 0x400, 0xDC00 + (r - 0x10000) % 0x400;
      IsPair(hi, lo) && IsSurrogate(hi) && IsSurrogate(lo) && Joined(hi, lo) == r
  {
  }

  /** The six bits of a continuation byte. */
  function Six(c: int): Option<nat> { if 0x80 <= c < 0xC0 then Some(c - 0x80) else None }

  /** Code point and six more bits. */
  function More(high: Option<nat>, c: int): Option<nat> {
    if high.Some? && Six(c).Some? then Some(high.value * 0x40 + Six(c).value) else None
  }

  /** A decoder of UTF-8: the lead byte says how many follow, with six bits each. */
  function FromUtf8(u: Bytes): Option<nat> {
    if |u| == 1 && u[0] < 0x80 then Some(u[0] as nat)
    else if |u| == 2 && 0xC0 <= u[0] < 0xE0 then More(Some((u[0] as int) - 0xC0), u[1])
    else if |u| == 3 && 0xE0 <= u[0] < 0xF0 then More(More(Some((u[0] as int) - 0xE0), u[1]), u[2])
    else if |u| == 4 && 0xF0 <= u[0] < 0xF8 then More(More(More(Some((u[0] as int) - 0xF0), u[1]), u[2]), u[3])
    else None
  }

  lemma SixtyFours(r: nat)
    ensures r == r / 0x40 * 0x40 + r % 0x40 && r / 0x1000 == r / 0x40 / 0x40 && r / 0x40000 == r / 0x40 / 0x40 / 0x40
  {
  }

  /** What the encoder writes decodes to the code point, and takes no more bytes than it needs. */
  lemma Utf8Decodes(r: nat)
    requires r < 0x110000
    ensures FromUtf8(Utf8(r)) == Some(r)
    ensures |Utf8(r)| == if r < 0x80 then 1 else if r < 0x800 then 2 else if r < 0x10000 then 3 else 4
  {
    SixtyFours(r);
    SixtyFours(r / 0x40);
    SixtyFours(r / 0x1000);
  }

  // ---------------------------------------------------------------- the round trip

  function Nibble(n: nat): Byte
    requires n < 16
  {
    if n < 10 then ZERO + n else 0x61 + n - 10
  }

  /** One way to write a byte: quotes and backslashes escaped, control bytes in hexadecimal. */
  function EscapeByte(c: Byte): Piece {
    if c == QUOTE || c == BACKSLASH then Short(c)
    else if c < 0x20 then Hex(ZERO, ZERO, Nibble(c / 16), Nibble(c % 16))
    else Raw(c)
  }

  function Escape(x: Bytes): Pieces { seq(|x|, i requires 0 <= i < |x| => EscapeByte(x[i])) }

  lemma EscapeByteMeans(c: Byte)
    ensures EscapeByte(c).Strict()
    ensures EscapeByte(c).Short? ==> ShortValue(EscapeByte(c).c) == c
    ensures EscapeByte(c).Hex? ==> Code(EscapeByte(c)) == c && c < 0x20
    ensures EscapeByte(c).Raw? ==> EscapeByte(c).c == c
  {
  }

  lemma {:induction false} EscapeMeans(x: Bytes)
    ensures StrictPieces(Escape(x)) && Meaning(Escape(x)) == x
    decreases |x|
  {
    forall i | 0 <= i < |x|
      ensures Escape(x)[i].Strict()
    {
      EscapeByteMeans(x[i]);
    }
    if x != [] {
      EscapeByteMeans(x[0]);
      assert Escape(x)[1..] == Escape(x[1..]);
      EscapeMeans(x[1..]);
      assert x == [x[0]] + x[1..];
    }
  }

  lemma BetweenQuotes(ps: Pieces, s: Bytes)
    requires ValidPieces(ps)
    ensures ScanString(Quoted(ps) + s) == StringEnd(s, Escaped(ps)) && Between(Quoted(ps) + s, s) == PiecesText(ps)
  {
    QuotedScans(ps, s);
  }

  /** Any byte string survives being escaped, scanned and decoded. */
  lemma StringRoundTrip(x: Bytes, s: Bytes)
    ensures ScanString(Quoted(Escape(x)) + s).StringEnd? && ScanString(Quoted(Escape(x)) + s).rest == s
    ensures Unescape(Between(Quoted(Escape(x)) + s, s)) == Some(x)
  {
    EscapeMeans(x);
    BetweenQuotes(Escape(x), s);
    UnescapeMeaning(Escape(x));
  }
}
