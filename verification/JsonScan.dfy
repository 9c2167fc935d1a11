/** The hand-written JSON scanner (pkg/codec/json.go). A scan step takes the bytes that are left and
    returns the bytes left after it. */
module JsonScanning {

  type Byte = x: int | 0 <= x < 256
  type Bytes = seq<Byte>

  const QUOTE: Byte := 0x22
  const PLUS: Byte := 0x2B
  const COMMA: Byte := 0x2C
  const MINUS: Byte := 0x2D
  const DOT: Byte := 0x2E
  const SLASH: Byte := 0x2F
  const ZERO: Byte := 0x30
  const NINE: Byte := 0x39
  const COLON: Byte := 0x3A
  const UPPER_E: Byte := 0x45
  const OPEN_ARRAY: Byte := 0x5B
  const BACKSLASH: Byte := 0x5C
  const CLOSE_ARRAY: Byte := 0x5D
  const LOWER_E: Byte := 0x65
  const LOWER_U: Byte := 0x75
  const OPEN_OBJECT: Byte := 0x7B
  const CLOSE_OBJECT: Byte := 0x7D

  const TRUE: Bytes := [0x74, 0x72, 0x75, 0x65]
  const FALSE: Bytes := [0x66, 0x61, 0x6C, 0x73, 0x65]
  const NULL: Bytes := [0x6E, 0x75, 0x6C, 0x6C]

  datatype Kind = IsString | IsNumber | IsBool | IsNull | IsContainer

  datatype Problem = Malformed | TooDeep

  /** The bytes left after a value, its kind, and whether a string in it was written with escapes. */
  datatype Scan = Ok(rest: Bytes, kind: Kind, escaped: bool) | Bad(why: Problem)

  datatype StringScan = StringEnd(rest: Bytes, escaped: bool) | StringBad

  predicate IsBlank(c: Byte) { c == 0x20 || c == 0x09 || c == 0x0A || c == 0x0D }

  predicate IsDigit(c: Byte) { ZERO <= c <= NINE }

  predicate Starts(s: Bytes, c: Byte) { s != [] && s[0] == c }

  function Ws(s: Bytes): (r: Bytes)
    ensures |r| <= |s| && (r != [] ==> !IsBlank(r[0]))
  {
    if s != [] && IsBlank(s[0]) then Ws(s[1..]) else s
  }

  /** From inside a string to just past its closing quote. An escape skips whatever it escapes. */
  function StringBody(s: Bytes, escaped: bool): (r: StringScan)
    ensures r.StringEnd? ==> |r.rest| < |s|
  {
    if s == [] then StringBad
    else if s[0] == BACKSLASH then (if |s| < 2 then StringBad else StringBody(s[2..], true))
    else if s[0] == QUOTE then StringEnd(s[1..], escaped)
    else if s[0] < 0x20 then StringBad
    else StringBody(s[1..], escaped)
  }

  function ScanString(s: Bytes): (r: StringScan)
    ensures r.StringEnd? ==> |r.rest| + 1 < |s|
  {
    if !Starts(s, QUOTE) then StringBad else StringBody(s[1..], false)
  }

  function SkipDigits(s: Bytes): (r: Bytes)
    ensures |r| <= |s|
  {
    if s != [] && IsDigit(s[0]) then SkipDigits(s[1..]) else s
  }

  function Number(s: Bytes): Scan { Ok(s, IsNumber, false) }

  function ScanExponent(s: Bytes): (r: Scan)
    ensures r.Ok? ==> |r.rest| <= |s|
  {
    if s == [] || (s[0] != LOWER_E && s[0] != UPPER_E) then Number(s)
    else
      var a := s[1..];
      var b := if a != [] && (a[0] == PLUS || a[0] == MINUS) then a[1..] else a;
      if |SkipDigits(b)| == |b| then Bad(Malformed) else Number(SkipDigits(b))
  }

  function ScanFraction(s: Bytes): (r: Scan)
    ensures r.Ok? ==> |r.rest| <= |s|
  {
    if !Starts(s, DOT) then ScanExponent(s)
    else if |SkipDigits(s[1..])| == |s[1..]| then Bad(Malformed)
    else ScanExponent(SkipDigits(s[1..]))
  }

  function ScanNumber(s: Bytes): (r: Scan)
    ensures r.Ok? ==> |r.rest| < |s|
  {
    var a := if Starts(s, MINUS) then s[1..] else s;
    if |SkipDigits(a)| == |a| then Bad(Malformed) else ScanFraction(SkipDigits(a))
  }

  function ScanLiteral(s: Bytes, want: Bytes, kind: Kind): (r: Scan)
    requires want != []
    ensures r.Ok? ==> |r.rest| < |s|
  {
    if |want| > |s| || s[..|want|] != want then Bad(Malformed) else Ok(s[|want|..], kind, false)
  }

  function ScanValue(s: Bytes, depth: nat, max: nat): (r: Scan)
    ensures r.Ok? ==> |r.rest| < |s|
    decreases |s|, 1
  {
    if depth > max then Bad(TooDeep)
    else if s == [] then Bad(Malformed)
    else if s[0] == QUOTE then
      (match ScanString(s)
       case StringBad => Bad(Malformed)
       case StringEnd(rest, escaped) => Ok(rest, IsString, escaped))
    else if s[0] == OPEN_OBJECT then
      var a := Ws(s[1..]);
      if Starts(a, CLOSE_OBJECT) then Ok(a[1..], IsContainer, false) else ScanMembers(a, depth, max)
    else if s[0] == OPEN_ARRAY then
      var a := Ws(s[1..]);
      if Starts(a, CLOSE_ARRAY) then Ok(a[1..], IsContainer, false) else ScanItems(a, depth, max)
    else if s[0] == TRUE[0] then ScanLiteral(s, TRUE, IsBool)
    else if s[0] == FALSE[0] then ScanLiteral(s, FALSE, IsBool)
    else if s[0] == NULL[0] then ScanLiteral(s, NULL, IsNull)
    else if s[0] == MINUS || IsDigit(s[0]) then ScanNumber(s)
    else Bad(Malformed)
  }

  /** Elements up to and including the closing bracket. */
  function ScanItems(s: Bytes, depth: nat, max: nat): (r: Scan)
    ensures r.Ok? ==> |r.rest| < |s|
    decreases |s|, 2
  {
    match ScanValue(Ws(s), depth + 1, max)
    case Bad(why) => Bad(why)
    case Ok(rest, _, _) =>
      var a := Ws(rest);
      if Starts(a, COMMA) then ScanItems(a[1..], depth, max)
      else if Starts(a, CLOSE_ARRAY) then Ok(a[1..], IsContainer, false)
      else Bad(Malformed)
  }

  /** A name and the colon after it: what is left is where the value starts. */
  function ScanName(s: Bytes): (r: StringScan)
    ensures r.StringEnd? ==> |r.rest| < |s|
  {
    match ScanString(Ws(s))
    case StringBad => StringBad
    case StringEnd(rest, escaped) =>
      var a := Ws(rest);
      if Starts(a, COLON) then StringEnd(Ws(a[1..]), escaped) else StringBad
  }

  /** A member: its name, then its value one level down. */
  function ScanMember(s: Bytes, depth: nat, max: nat): (r: Scan)
    ensures r.Ok? ==> |r.rest| < |s|
    decreases |s|, 2
  {
    match ScanName(s)
    case StringBad => Bad(Malformed)
    case StringEnd(at, _) => ScanValue(at, depth + 1, max)
  }

  function ScanMembers(s: Bytes, depth: nat, max: nat): (r: Scan)
    ensures r.Ok? ==> |r.rest| < |s|
    decreases |s|, 3
  {
    match ScanMember(s, depth, max)
    case Bad(why) => Bad(why)
    case Ok(rest, _, _) =>
      var a := Ws(rest);
      if Starts(a, COMMA) then ScanMembers(a[1..], depth, max)
      else if Starts(a, CLOSE_OBJECT) then Ok(a[1..], IsContainer, false)
      else Bad(Malformed)
  }

  /** What lies between the quotes of a string that was scanned. */
  function Between(s: Bytes, rest: Bytes): Bytes
    requires |rest| + 2 <= |s|
  {
    s[1..|s| - |rest| - 1]
  }

  /** The bytes between the quotes of the name that comes next. */
  function NameIn(s: Bytes): Bytes
    requires ScanName(s).StringEnd?
  {
    Between(Ws(s), ScanString(Ws(s)).rest)
  }
}
