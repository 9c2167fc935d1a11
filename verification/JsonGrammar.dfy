/** JSON texts as trees that remember every byte (RFC 8259, sections 2 to 7). */
module JsonGrammar {
  import opened Events
  import opened JsonScanning

  /** A character of a string as it is written. The scanner lets a backslash hide any byte; whether it
      is an escape is for the decoder to say. */
  datatype Piece = Raw(c: Byte) | Short(c: Byte) | Hex(d1: Byte, d2: Byte, d3: Byte, d4: Byte)
  {
    predicate Valid() {
      match this
      case Raw(c) => c >= 0x20 && c != QUOTE && c != BACKSLASH
      case Short(_) => true
      case Hex(a, b, c, d) => IsHex(a) && IsHex(b) && IsHex(c) && IsHex(d)
    }

    /** As RFC 8259 has it. */
    predicate Strict() { Valid() && (Short? ==> IsShort(c)) }

    function Text(): Bytes {
      match this
      case Raw(c) => [c]
      case Short(c) => [BACKSLASH, c]
      case Hex(a, b, c, d) => [BACKSLASH, LOWER_U, a, b, c, d]
    }
  }

  /** One of the eight two-character escapes. */
  predicate IsShort(c: Byte) {
    c == QUOTE || c == BACKSLASH || c == SLASH || c == 0x62 || c == 0x66 || c == 0x6E || c == 0x72 || c == 0x74
  }

  predicate IsHex(c: Byte) { IsDigit(c) || 0x61 <= c <= 0x66 || 0x41 <= c <= 0x46 }

  type Pieces = seq<Piece>

  predicate ValidPieces(ps: Pieces) { forall i :: 0 <= i < |ps| ==> ps[i].Valid() }

  predicate StrictPieces(ps: Pieces) { forall i :: 0 <= i < |ps| ==> ps[i].Strict() }

  function PiecesText(ps: Pieces): Bytes {
    if ps == [] then [] else ps[0].Text() + PiecesText(ps[1..])
  }

  predicate Escaped(ps: Pieces) { exists i :: 0 <= i < |ps| && !ps[i].Raw? }

  function Quoted(ps: Pieces): Bytes { [QUOTE] + PiecesText(ps) + [QUOTE] }

  datatype Exponent = Exponent(mark: Byte, sign: Option<Byte>, digits: Bytes)

  datatype Figure = Figure(negative: bool, whole: Bytes, fraction: Option<Bytes>, exponent: Option<Exponent>)

  predicate DigitsOnly(s: Bytes) { s != [] && forall i :: 0 <= i < |s| ==> IsDigit(s[i]) }

  predicate ValidFigure(f: Figure) {
    && DigitsOnly(f.whole) && (f.fraction.Some? ==> DigitsOnly(f.fraction.value))
    && (f.exponent.Some? ==> ValidExponent(f.exponent.value))
  }

  predicate ValidExponent(e: Exponent) {
    (e.mark == LOWER_E || e.mark == UPPER_E) && DigitsOnly(e.digits) &&
      (e.sign.Some? ==> e.sign.value == PLUS || e.sign.value == MINUS)
  }

  function ExponentText(e: Option<Exponent>): Bytes {
    if e.None? then [] else [e.value.mark] + (if e.value.sign.Some? then [e.value.sign.value] else []) + e.value.digits
  }

  function FractionText(f: Option<Bytes>): Bytes { if f.None? then [] else [DOT] + f.value }

  function FigureText(f: Figure): Bytes {
    (if f.negative then [MINUS] else []) + f.whole + FractionText(f.fraction) + ExponentText(f.exponent)
  }

  datatype Json =
    | Word(text: Bytes, kind: Kind)
    | Num(figure: Figure)
    | Str(pieces: Pieces)
    | Arr(blank: Bytes, items: Items)
    | Obj(gap: Bytes, members: Members)

  datatype Items = NoItems | Items(before: Bytes, value: Json, after: Bytes, rest: Items)

  datatype Members = NoMembers
    | Members(before: Bytes, name: Pieces, colon1: Bytes, colon2: Bytes, value: Json, after: Bytes, rest: Members)

  predicate Blanks(s: Bytes) { forall i :: 0 <= i < |s| ==> IsBlank(s[i]) }

  function Text(v: Json): Bytes {
    match v
    case Word(text, _) => text
    case Num(f) => FigureText(f)
    case Str(ps) => Quoted(ps)
    case Arr(blank, items) => [OPEN_ARRAY] + (if items.NoItems? then blank + [CLOSE_ARRAY] else ItemsText(items))
    case Obj(gap, members) =>
      [OPEN_OBJECT] + (if members.NoMembers? then gap + [CLOSE_OBJECT] else MembersText(members))
  }

  function ItemsText(l: Items): Bytes {
    match l
    case NoItems => []
    case Items(before, v, after, rest) =>
      before + (Text(v) + (after + (if rest.NoItems? then [CLOSE_ARRAY] else [COMMA] + ItemsText(rest))))
  }

  function MembersText(l: Members): Bytes {
    match l
    case NoMembers => []
    case Members(before, name, colon1, colon2, v, after, rest) =>
      before + (Quoted(name) +
        (colon1 + ([COLON] + (colon2 +
        (Text(v) + (after + (if rest.NoMembers? then [CLOSE_OBJECT] else [COMMA] + MembersText(rest))))))))
  }

  predicate Valid(v: Json) {
    match v
    case Word(text, kind) => (text == TRUE && kind.IsBool?) || (text == FALSE && kind.IsBool?) ||
      (text == NULL && kind.IsNull?)
    case Num(f) => ValidFigure(f)
    case Str(ps) => ValidPieces(ps)
    case Arr(blank, items) => Blanks(blank) && ValidItems(items)
    case Obj(gap, members) => Blanks(gap) && ValidMembers(members)
  }

  predicate ValidItems(l: Items) {
    l.NoItems? || (Blanks(l.before) && Blanks(l.after) && Valid(l.value) && ValidItems(l.rest))
  }

  predicate ValidMembers(l: Members) {
    l.NoMembers? || (Blanks(l.before) && ValidPieces(l.name) && Blanks(l.colon1) && Blanks(l.colon2) && Blanks(l.after)
      && Valid(l.value) && ValidMembers(l.rest))
  }

  /** How many containers deep the deepest value inside sits. */
  function Nesting(v: Json): nat {
    match v
    case Arr(_, items) => if items.NoItems? then 0 else 1 + ItemsNesting(items)
    case Obj(_, members) => if members.NoMembers? then 0 else 1 + MembersNesting(members)
    case _ => 0
  }

  function Deeper(a: nat, b: nat): nat { if a >= b then a else b }

  function ItemsNesting(l: Items): nat {
    if l.NoItems? then 0 else Deeper(Nesting(l.value), ItemsNesting(l.rest))
  }

  function MembersNesting(l: Members): nat {
    if l.NoMembers? then 0 else Deeper(Nesting(l.value), MembersNesting(l.rest))
  }

  function KindOf(v: Json): Kind {
    match v
    case Word(_, kind) => kind
    case Num(_) => IsNumber
    case Str(_) => IsString
    case _ => IsContainer
  }

  function EscapedIn(v: Json): bool { v.Str? && Escaped(v.pieces) }
}
