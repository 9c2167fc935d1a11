/** The top-level walk: captures the fields the codec wants and skips the rest. */
module JsonCapture {
  import opened Events
  import opened JsonScanning
  import opened JsonGrammar
  import opened JsonCompleteness
  import opened JsonStrings

  type Field = nat

  /** Which event fields a member name feeds. */
  type Names = map<Bytes, set<Field>>

  datatype Capture = Capture(raw: Bytes, kind: Kind, escape: bool)

  type Captures = map<Field, Capture>

  datatype TopScan = Captured(caps: Captures) | Refused(why: Problem)

  function FieldsOf(names: Names, name: Bytes): set<Field> { if name in names then names[name] else {} }

  /** Unescapes only when it has to; a name that cannot be decoded feeds nothing. */
  function Lookup(names: Names, name: Bytes, escaped: bool): set<Field> {
    if !escaped then FieldsOf(names, name)
    else (match Unescape(name) case None => {} case Some(decoded) => FieldsOf(names, decoded))
  }

  function Record(caps: Captures, wanted: set<Field>, c: Capture): Captures {
    map f | f in caps.Keys + wanted :: if f in wanted then c else caps[f]
  }

  function Eof(s: Bytes, caps: Captures): TopScan { if Ws(s) == [] then Captured(caps) else Refused(Malformed) }

  datatype MemberScan = Recorded(rest: Bytes, caps: Captures) | Stopped(why: Problem)

  /** One member at the top level: its value, if wanted, is recorded for every field it feeds. */
  function TopMember(s: Bytes, names: Names, max: nat, caps: Captures): (r: MemberScan)
    ensures r.Recorded? ==> |r.rest| < |s|
  {
    match ScanName(s)
    case StringBad => Stopped(Malformed)
    case StringEnd(at, escaped) =>
      match ScanValue(at, 0, max)
      case Bad(why) => Stopped(why)
      case Ok(rest, kind, inner) =>
        Recorded(rest, Record(caps, Lookup(names, NameIn(s), escaped),
          Capture(at[..|at| - |rest|], kind, kind.IsString? && inner)))
  }

  function ScanTopMembers(s: Bytes, names: Names, max: nat, caps: Captures): TopScan
    decreases |s|
  {
    match TopMember(s, names, max, caps)
    case Stopped(why) => Refused(why)
    case Recorded(rest, caps') =>
      var a := Ws(rest);
      if Starts(a, COMMA) then ScanTopMembers(a[1..], names, max, caps')
      else if Starts(a, CLOSE_OBJECT) then Eof(a[1..], caps')
      else Refused(Malformed)
  }

  function ScanTop(b: Bytes, names: Names, max: nat): TopScan {
    var a := Ws(b);
    if !Starts(a, OPEN_OBJECT) then Refused(Malformed)
    else
      var c := Ws(a[1..]);
      if Starts(c, CLOSE_OBJECT) then Eof(c[1..], map[]) else ScanTopMembers(c, names, max, map[])
  }

  // ---------------------------------------------------------------- what it captures

  function CaptureOf(v: Json): Capture { Capture(Text(v), KindOf(v), EscapedIn(v)) }

  /** The fields a name feeds, as it is written. */
  function Fed(names: Names, name: Pieces): set<Field> { Lookup(names, PiecesText(name), Escaped(name)) }

  /** The last member that feeds a field. */
  function LastFor(l: Members, names: Names, f: Field): Option<Json>
    requires ValidMembers(l)
  {
    if l.NoMembers? then None
    else
      var later := LastFor(l.rest, names, f);
      if later.Some? then later else if f in Fed(names, l.name) then Some(l.value) else None
  }

  function CaptureAll(l: Members, names: Names, caps: Captures): Captures
    requires ValidMembers(l)
  {
    if l.NoMembers? then caps
    else CaptureAll(l.rest, names, Record(caps, Fed(names, l.name), CaptureOf(l.value)))
  }

  lemma {:induction false} LastOneWins(l: Members, names: Names, caps: Captures, f: Field)
    requires ValidMembers(l)
    ensures var last := LastFor(l, names, f);
      && (f in CaptureAll(l, names, caps) <==> last.Some? || f in caps)
      && (f in CaptureAll(l, names, caps) ==>
           CaptureAll(l, names, caps)[f] == if last.Some? then CaptureOf(last.value) else caps[f])
    decreases l
  {
    if l.Members? {
      LastOneWins(l.rest, names, Record(caps, Fed(names, l.name), CaptureOf(l.value)), f);
    }
  }

  /** A name written as RFC 8259 has it feeds the fields of what it means; one that cannot be decoded
      feeds none. */
  lemma LookupMeans(names: Names, name: Pieces)
    requires ValidPieces(name)
    ensures StrictPieces(name) ==> Fed(names, name) == if Meaning(name) in names then names[Meaning(name)] else {}
    ensures Escaped(name) && Unescape(PiecesText(name)) == None ==> Fed(names, name) == {}
  {
    if StrictPieces(name) {
      if Escaped(name) {
        UnescapeMeaning(name);
      } else {
        RawMeaning(name);
      }
    }
  }

  /** The name that was scanned is the name that was written. */
  lemma NameIs(l: Members, s: Bytes)
    requires l.Members? && ValidMembers(l)
    ensures var t := Ws(MembersText(l) + s);
      ScanString(t).StringEnd? && Between(t, ScanString(t).rest) == PiecesText(l.name)
  {
    var r := l.colon1 + ([COLON] + (l.colon2 + FromValue(l, s)));
    MembersTextSplit(l, s);
    WsSkips(l.before, Quoted(l.name) + r);
    BetweenQuotes(l.name, r);
  }

  lemma TopStep(t: Bytes, name: Bytes, at: Bytes, escapedName: bool, v: Json, r: Bytes, tail: Bytes, names: Names,
      max: nat, caps: Captures)
    requires ScanName(t) == StringEnd(at, escapedName) && ScanString(Ws(t)).StringEnd?
    requires Between(Ws(t), ScanString(Ws(t)).rest) == name
    requires at == Text(v) + r && ScanValue(at, 0, max) == Expected(r, KindOf(v), EscapedIn(v), 0, Nesting(v), max)
    requires Ws(r) == tail
    requires Starts(tail, COMMA) || Starts(tail, CLOSE_OBJECT)
    ensures var caps' := Record(caps, Lookup(names, name, escapedName), CaptureOf(v));
      ScanTopMembers(t, names, max, caps) ==
        if Nesting(v) > max then Refused(TooDeep)
        else if tail[0] == COMMA then ScanTopMembers(tail[1..], names, max, caps')
        else Eof(tail[1..], caps')
  {
    assert at[..|at| - |r|] == Text(v);
  }

  lemma FirstTopMember(l: Members, s: Bytes, names: Names, max: nat, caps: Captures)
    requires l.Members? && ValidMembers(l)
    ensures var caps' := Record(caps, Fed(names, l.name), CaptureOf(l.value));
      ScanTopMembers(MembersText(l) + s, names, max, caps) ==
        if Nesting(l.value) > max then Refused(TooDeep)
        else if l.rest.Members? then ScanTopMembers(MembersText(l.rest) + s, names, max, caps')
        else Eof(s, caps')
  {
    MemberName(l, s);
    NameIs(l, s);
    MembersTailStarts(l, s);
    ValueScans(l.value, l.after + (MembersTail(l) + s), 0, max);
    TopStep(MembersText(l) + s, PiecesText(l.name), FromValue(l, s), Escaped(l.name), l.value,
            l.after + (MembersTail(l) + s), MembersTail(l) + s, names, max, caps);
  }

  lemma {:induction false} TopMembersScan(l: Members, s: Bytes, names: Names, max: nat, caps: Captures)
    requires l.Members? && ValidMembers(l)
    ensures ScanTopMembers(MembersText(l) + s, names, max, caps) ==
            if MembersNesting(l) > max then Refused(TooDeep) else Eof(s, CaptureAll(l, names, caps))
    decreases l
  {
    FirstTopMember(l, s, names, max, caps);
    if l.rest.Members? {
      TopMembersScan(l.rest, s, names, max, Record(caps, Fed(names, l.name), CaptureOf(l.value)));
    }
  }

  lemma BlanksBeforeMembers(t: Bytes, names: Names, max: nat, caps: Captures)
    ensures ScanTopMembers(Ws(t), names, max, caps) == ScanTopMembers(t, names, max, caps)
  {
    WsTwice(t);
    assert ScanName(Ws(t)) == ScanName(t);
    if ScanName(t).StringEnd? {
      assert NameIn(Ws(t)) == NameIn(t);
    }
  }

  lemma TopValue(lead: Bytes, t: Bytes, names: Names, max: nat)
    requires Blanks(lead)
    ensures ScanTop(lead + ([OPEN_OBJECT] + t), names, max) ==
            if Starts(Ws(t), CLOSE_OBJECT) then Eof(Ws(t)[1..], map[]) else ScanTopMembers(t, names, max, map[])
  {
    WsSkips(lead, [OPEN_OBJECT] + t);
    assert ([OPEN_OBJECT] + t)[1..] == t;
    BlanksBeforeMembers(t, names, max, map[]);
  }

  lemma EmptyTopScans(lead: Bytes, gap: Bytes, trail: Bytes, names: Names, max: nat)
    requires Blanks(lead) && Blanks(trail) && Blanks(gap)
    ensures ScanTop(lead + (Text(Obj(gap, NoMembers)) + trail), names, max) == Eof(trail, map[])
  {
    assert Text(Obj(gap, NoMembers)) + trail == [OPEN_OBJECT] + (gap + ([CLOSE_OBJECT] + trail));
    TopValue(lead, gap + ([CLOSE_OBJECT] + trail), names, max);
    WsSkips(gap, [CLOSE_OBJECT] + trail);
    assert ([CLOSE_OBJECT] + trail)[1..] == trail;
  }

  lemma FilledTopScans(lead: Bytes, gap: Bytes, members: Members, trail: Bytes, names: Names, max: nat)
    requires Blanks(lead) && members.Members? && ValidMembers(members)
    ensures ScanTop(lead + (Text(Obj(gap, members)) + trail), names, max) ==
      ScanTopMembers(MembersText(members) + trail, names, max, map[])
  {
    assert Text(Obj(gap, members)) + trail == [OPEN_OBJECT] + (MembersText(members) + trail);
    TopValue(lead, MembersText(members) + trail, names, max);
    MembersStart(members, trail);
  }

  /** Every JSON object, with blanks around it, is scanned to the end exactly when it is nested within
      the limit; a deeper one is refused as too deep. */
  lemma TopScans(lead: Bytes, gap: Bytes, members: Members, trail: Bytes, names: Names, max: nat)
    requires Blanks(lead) && Blanks(trail) && Valid(Obj(gap, members))
    ensures ScanTop(lead + (Text(Obj(gap, members)) + trail), names, max) ==
            if MembersNesting(members) > max then Refused(TooDeep) else Captured(CaptureAll(members, names, map[]))
  {
    WsSkips(trail, []);
    assert trail + [] == trail;
    if members.NoMembers? {
      EmptyTopScans(lead, gap, trail, names, max);
    } else {
      FilledTopScans(lead, gap, members, trail, names, max);
      TopMembersScan(members, trail, names, max, map[]);
    }
  }

  /** Each mapped field is captured from its last occurrence, byte for byte, and from nowhere else. */
  lemma LastOccurrenceIsCaptured(lead: Bytes, gap: Bytes, members: Members, trail: Bytes, names: Names, max: nat,
      f: Field)
    requires Blanks(lead) && Blanks(trail) && Valid(Obj(gap, members)) && MembersNesting(members) <= max
    ensures var r, last := ScanTop(lead + (Text(Obj(gap, members)) + trail), names, max), LastFor(members, names, f);
      && r.Captured?
      && (f in r.caps <==> last.Some?)
      && (last.Some? ==> r.caps[f] == CaptureOf(last.value))
  {
    TopScans(lead, gap, members, trail, names, max);
    LastOneWins(members, names, map[], f);
  }
}
