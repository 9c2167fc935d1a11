/** The codec's scan of a payload, run on the parser. */
module JsonCodec {
  import opened Events
  import opened JsonScanning
  import opened JsonGrammar
  import opened JsonStrings
  import opened JsonCapture
  import opened JsonParser

  /** Decodes escapes into a growing buffer. */
  method DecodeEscapes(src: Bytes) returns (r: Option<Bytes>)
    ensures r == Unescape(src)
  {
    var dst: Bytes, i := [], 0;
    assert src[0..] == src && (Unescape(src).Some? ==> [] + Unescape(src).value == Unescape(src).value);
    while i < |src|
      invariant 0 <= i <= |src| && After(dst, Unescape(src[i..])) == Unescape(src)
      decreases |src| - i
    {
      var piece: Bytes, next := [src[i]], i + 1;
      if src[i] == BACKSLASH {
        if i + 1 >= |src| {
          return None;
        }
        if IsShort(src[i + 1]) {
          piece, next := [ShortValue(src[i + 1])], i + 2;
        } else if src[i + 1] == LOWER_U {
          var d := DecodeUnicode(src[i + 1..]);
          if d.NotHex? {
            return None;
          }
          piece, next := Utf8(d.r), i + 1 + d.consumed;
        } else {
          return None;
        }
      }
      UnescapeStep(src, i, piece, next);
      AfterAfter(dst, piece, Unescape(src[next..]));
      dst, i := dst + piece, next;
    }
    assert dst + [] == dst;
    r := Some(dst);
  }

  lemma AfterAfter(a: Bytes, b: Bytes, rest: Option<Bytes>)
    ensures After(a, After(b, rest)) == After(a + b, rest)
  {
    if rest.Some? {
      assert a + (b + rest.value) == a + b + rest.value;
    }
  }

  /** One escape or one plain byte. */
  lemma UnescapeStep(src: Bytes, i: nat, piece: Bytes, next: nat)
    requires i < |src|
    requires src[i] != BACKSLASH ==> piece == [src[i]] && next == i + 1
    requires src[i] == BACKSLASH ==>
      i + 1 < |src| &&
      if IsShort(src[i + 1]) then piece == [ShortValue(src[i + 1])] && next == i + 2
      else
        var u := DecodeUnicode(src[i + 1..]);
        src[i + 1] == LOWER_U && u.Rune? && piece == Utf8(u.r) && next == i + 1 + u.consumed
    ensures next <= |src| && Unescape(src[i..]) == After(piece, Unescape(src[next..]))
  {
    var s := src[i..];
    assert s[1..] == src[i + 1..];
    assert next <= |src| ==> s[next - i..] == src[next..];
  }

  method LookUpName(names: Names, name: Bytes, escaped: bool) returns (wanted: set<Field>)
    ensures wanted == Lookup(names, name, escaped)
  {
    var decoded := Some(name);
    if escaped {
      decoded := DecodeEscapes(name);
    }
    wanted := if decoded.Some? then FieldsOf(names, decoded.value) else {};
  }

  /** One top-level member: its captures are recorded, or it is refused. */
  method ScanTopMember(p: Parser, names: Names, caps: Captures) returns (err: Option<Problem>, caps': Captures)
    requires p.i <= |p.b|
    modifies p
    ensures match TopMember(p.b[old(p.i)..], names, p.maxDepth, caps)
      case Stopped(why) => err == Some(why)
      case Recorded(rest, more) => err.None? && p.i <= |p.b| && p.b[p.i..] == rest && caps' == more
  {
    caps' := caps;
    ghost var s := p.b[p.i..];
    var ok, escaped, from, to := p.ScanNameAndColon();
    if !ok {
      return Some(Malformed), caps;
    }
    var wanted := LookUpName(names, p.b[from..to], escaped);
    var start := p.i;
    var kind;
    err, kind := p.ScanAny(0);
    if err.None? {
      ghost var at := p.b[start..];
      assert at[..|at| - |p.b[p.i..]|] == p.b[start..p.i];
      caps' := Record(caps, wanted, Capture(p.b[start..p.i], kind, kind.IsString? && p.lastStringEscaped));
    }
  }

  method ScanPayload(b: Bytes, names: Names, maxDepth: nat) returns (r: TopScan)
    ensures r == ScanTop(b, names, maxDepth)
  {
    var p := new Parser(b, maxDepth);
    assert b[0..] == b;
    p.SkipBlanks();
    if p.i >= |b| || b[p.i] != OPEN_OBJECT {
      return Refused(Malformed);
    }
    assert b[p.i..][1..] == b[p.i + 1..];
    p.i := p.i + 1;
    p.SkipBlanks();
    if p.i < |b| && b[p.i] == CLOSE_OBJECT {
      assert b[p.i..][1..] == b[p.i + 1..];
      p.i := p.i + 1;
      r := AtEnd(p, map[]);
    } else {
      r := ScanTopMemberList(p, names);
    }
  }

  /** Only blanks may follow. */
  method AtEnd(p: Parser, caps: Captures) returns (r: TopScan)
    requires p.i <= |p.b|
    modifies p
    ensures r == Eof(p.b[old(p.i)..], caps)
  {
    p.SkipBlanks();
    r := if p.i < |p.b| then Refused(Malformed) else Captured(caps);
  }

  method ScanTopMemberList(p: Parser, names: Names) returns (r: TopScan)
    requires p.i <= |p.b|
    modifies p
    ensures r == ScanTopMembers(p.b[old(p.i)..], names, p.maxDepth, map[])
  {
    var caps: Captures := map[];
    ghost var target := ScanTopMembers(p.b[p.i..], names, p.maxDepth, caps);
    while true
      invariant p.i <= |p.b| && ScanTopMembers(p.b[p.i..], names, p.maxDepth, caps) == target
      decreases |p.b| - p.i
    {
      var err;
      err, caps := ScanTopMember(p, names, caps);
      if err.Some? {
        return Refused(err.value);
      }
      var more, done := p.ScanMark(CLOSE_OBJECT);
      if done {
        r := AtEnd(p, caps);
        return;
      }
      if !more {
        return Refused(Malformed);
      }
    }
  }

  /** Decoding, end to end: the parser run on any JSON object within the depth limit captures each
      mapped field from its last occurrence. */
  method ScanObjectText(lead: Bytes, gap: Bytes, members: Members, trail: Bytes, names: Names, maxDepth: nat)
      returns (r: TopScan)
    requires Blanks(lead) && Blanks(trail) && Valid(Obj(gap, members)) && MembersNesting(members) <= maxDepth
    ensures r.Captured?
    ensures forall f :: f in r.caps <==> LastFor(members, names, f).Some?
    ensures forall f :: f in r.caps ==> r.caps[f] == CaptureOf(LastFor(members, names, f).value)
  {
    r := ScanPayload(lead + (Text(Obj(gap, members)) + trail), names, maxDepth);
    TopScans(lead, gap, members, trail, names, maxDepth);
    forall f
      ensures f in r.caps <==> LastFor(members, names, f).Some?
      ensures f in r.caps ==> r.caps[f] == CaptureOf(LastFor(members, names, f).value)
    {
      LastOneWins(members, names, map[], f);
    }
  }
}
