/** The parser itself: one cursor that runs over the payload. */
module JsonParser {
  import opened Events
  import opened JsonScanning

  lemma QuotedSlice(b: Bytes, at: nat, i: nat)
    requires at + 2 <= i <= |b|
    ensures b[at + 1..i - 1] == Between(b[at..], b[i..])
  {
  }

  /** From inside a string to just past its closing quote. */
  method FindClosingQuote(b: Bytes, start: nat) returns (ok: bool, i: nat, escaped: bool)
    requires start <= |b|
    ensures ok == StringBody(b[start..], false).StringEnd?
    ensures ok ==> start < i <= |b| && StringBody(b[start..], false) == StringEnd(b[i..], escaped)
  {
    i, escaped, ok := start, false, false;
    ghost var target := StringBody(b[start..], false);
    while i < |b|
      invariant start <= i
      invariant i <= |b| ==> StringBody(b[i..], escaped) == target
      invariant i > |b| ==> target == StringBad
      decreases |b| - i
    {
      if b[i] == BACKSLASH {
        escaped := true;
        i := i + 2;
      } else if b[i] == QUOTE {
        return true, i + 1, escaped;
      } else if b[i] < 0x20 {
        return;
      } else {
        i := i + 1;
      }
    }
  }

  class Parser {
    const b: Bytes
    const maxDepth: nat
    var i: nat
    var lastStringEscaped: bool

    constructor (b: Bytes, maxDepth: nat)
      ensures this.b == b && this.maxDepth == maxDepth && i == 0
    {
      this.b, this.maxDepth, i, lastStringEscaped := b, maxDepth, 0, false;
    }

    method SkipBlanks()
      requires i <= |b|
      modifies this`i
      ensures i <= |b| && b[i..] == Ws(b[old(i)..])
    {
      while i < |b| && IsBlank(b[i])
        invariant i <= |b| && Ws(b[i..]) == Ws(b[old(i)..])
        decreases |b| - i
      {
        i := i + 1;
      }
    }

    /** Past a string; its contents are b[from..to]. On failure the cursor may overshoot the end. */
    method ScanQuoted() returns (ok: bool, escaped: bool, from: nat, to: nat)
      requires i <= |b|
      modifies this
      ensures ok == ScanString(b[old(i)..]).StringEnd?
      ensures ok ==> i <= |b| && b[i..] == ScanString(b[old(i)..]).rest && escaped == ScanString(b[old(i)..]).escaped
      ensures ok ==> lastStringEscaped == escaped && from == old(i) + 1 && to == i - 1 && from <= to
    {
      ok, escaped, from, to := false, false, 0, 0;
      if i < |b| && b[i] == QUOTE {
        assert b[i..][1..] == b[i + 1..];
        var end;
        ok, end, escaped := FindClosingQuote(b, i + 1);
        if ok {
          from, to := i + 1, end - 1;
          lastStringEscaped := escaped;
        }
        i := end;
      }
    }

    method SkipNumerals() returns (some: bool)
      requires i <= |b|
      modifies this`i
      ensures old(i) <= i <= |b| && b[i..] == SkipDigits(b[old(i)..]) && some == (i > old(i))
    {
      var start := i;
      while i < |b| && IsDigit(b[i])
        invariant old(i) <= i <= |b| && SkipDigits(b[i..]) == SkipDigits(b[old(i)..])
        decreases |b| - i
      {
        i := i + 1;
      }
      some := i > start;
    }

    /** The cursor has done what the scan of a value says. */
    ghost predicate Matches(r: Scan, err: Option<Problem>, kind: Kind)
      reads this
    {
      match r
      case Bad(why) => err == Some(why)
      case Ok(rest, k, escaped) =>
        && err.None? && kind == k && i <= |b| && b[i..] == rest
        && (k.IsString? ==> lastStringEscaped == escaped)
    }

    method ScanExponentPart() returns (ok: bool)
      requires i <= |b|
      modifies this`i
      ensures ok == ScanExponent(b[old(i)..]).Ok? && (ok ==> i <= |b| && b[i..] == ScanExponent(b[old(i)..]).rest)
    {
      ok := true;
      if i < |b| && (b[i] == LOWER_E || b[i] == UPPER_E) {
        assert b[i..][1..] == b[i + 1..];
        i := i + 1;
        if i < |b| && (b[i] == PLUS || b[i] == MINUS) {
          assert b[i..][1..] == b[i + 1..];
          i := i + 1;
        }
        ok := SkipNumerals();
      }
    }

    method ScanFractionPart() returns (ok: bool)
      requires i <= |b|
      modifies this`i
      ensures ok == ScanFraction(b[old(i)..]).Ok? && (ok ==> i <= |b| && b[i..] == ScanFraction(b[old(i)..]).rest)
    {
      ok := true;
      if i < |b| && b[i] == DOT {
        assert b[i..][1..] == b[i + 1..];
        i := i + 1;
        ok := SkipNumerals();
      }
      if ok {
        ok := ScanExponentPart();
      }
    }

    method ScanFigure() returns (ok: bool)
      requires i <= |b|
      modifies this`i
      ensures ok == ScanNumber(b[old(i)..]).Ok? && (ok ==> i <= |b| && b[i..] == ScanNumber(b[old(i)..]).rest)
    {
      if i < |b| && b[i] == MINUS {
        assert b[i..][1..] == b[i + 1..];
        i := i + 1;
      }
      ok := SkipNumerals();
      if ok {
        ok := ScanFractionPart();
      }
    }

    method ScanWord(want: Bytes, ghost kind: Kind) returns (ok: bool)
      requires i <= |b| && want != []
      modifies this`i
      ensures ok == ScanLiteral(b[old(i)..], want, kind).Ok?
      ensures ok ==> i <= |b| && b[i..] == ScanLiteral(b[old(i)..], want, kind).rest
    {
      ok := false;
      if i + |want| <= |b| && b[i..i + |want|] == want {
        assert b[i..][..|want|] == b[i..i + |want|] && b[i..][|want|..] == b[i + |want|..];
        i := i + |want|;
        ok := true;
      } else if i + |want| <= |b| {
        assert b[i..][..|want|] == b[i..i + |want|];
      }
    }

    method ScanColon() returns (ok: bool)
      requires i <= |b|
      modifies this`i
      ensures ok == Starts(Ws(b[old(i)..]), COLON) && (ok ==> i <= |b| && b[i..] == Ws(Ws(b[old(i)..])[1..]))
    {
      SkipBlanks();
      ok := i < |b| && b[i] == COLON;
      if ok {
        assert b[i..][1..] == b[i + 1..];
        i := i + 1;
        SkipBlanks();
      }
    }

    /** A name, a colon and the blanks around them. */
    method ScanNameAndColon() returns (ok: bool, escaped: bool, from: nat, to: nat)
      requires i <= |b|
      modifies this
      ensures ok == ScanName(b[old(i)..]).StringEnd?
      ensures ok ==> i <= |b| && b[i..] == ScanName(b[old(i)..]).rest && escaped == ScanName(b[old(i)..]).escaped
      ensures ok ==> from <= to <= |b| && b[from..to] == NameIn(b[old(i)..])
    {
      SkipBlanks();
      ghost var at := i;
      ok, escaped, from, to := ScanQuoted();
      if ok {
        ghost var end := i;
        QuotedSlice(b, at, end);
        ok := ScanColon();
      }
    }

    method ScanAny(depth: nat) returns (err: Option<Problem>, kind: Kind)
      requires i <= |b|
      modifies this
      ensures Matches(ScanValue(b[old(i)..], depth, maxDepth), err, kind)
      decreases |b| - i, 1
    {
      kind := IsString;
      if depth > maxDepth {
        return Some(TooDeep), kind;
      }
      if i >= |b| {
        return Some(Malformed), kind;
      }
      var ok;
      if b[i] == QUOTE {
        var escaped, from, to;
        ok, escaped, from, to := ScanQuoted();
      } else if b[i] == OPEN_OBJECT {
        err := ScanObject(depth);
        return err, IsContainer;
      } else if b[i] == OPEN_ARRAY {
        err := ScanArray(depth);
        return err, IsContainer;
      } else if b[i] == TRUE[0] {
        ok := ScanWord(TRUE, IsBool);
        kind := IsBool;
      } else if b[i] == FALSE[0] {
        ok := ScanWord(FALSE, IsBool);
        kind := IsBool;
      } else if b[i] == NULL[0] {
        ok := ScanWord(NULL, IsNull);
        kind := IsNull;
      } else if b[i] == MINUS || IsDigit(b[i]) {
        ok := ScanFigure();
        kind := IsNumber;
      } else {
        ok := false;
      }
      err := if ok then None else Some(Malformed);
    }

    method ScanOneMember(depth: nat) returns (err: Option<Problem>)
      requires i <= |b|
      modifies this
      ensures match ScanMember(b[old(i)..], depth, maxDepth)
        case Bad(why) => err == Some(why)
        case Ok(rest, _, _) => err.None? && i <= |b| && b[i..] == rest
      decreases |b| - i, 2
    {
      var ok, escaped, from, to := ScanNameAndColon();
      if !ok {
        return Some(Malformed);
      }
      var kind;
      err, kind := ScanAny(depth + 1);
    }

    method ScanObject(depth: nat) returns (err: Option<Problem>)
      requires i < |b| && b[i] == OPEN_OBJECT && depth <= maxDepth
      modifies this
      ensures Matches(ScanValue(b[old(i)..], depth, maxDepth), err, IsContainer)
      decreases |b| - i, 0
    {
      assert b[i..][1..] == b[i + 1..];
      i := i + 1;
      SkipBlanks();
      if i < |b| && b[i] == CLOSE_OBJECT {
        assert b[i..][1..] == b[i + 1..];
        i := i + 1;
        return None;
      }
      err := ScanMemberList(depth);
    }

    /** What follows a value in a container: a comma, the closing bracket, or neither. */
    method ScanMark(close: Byte) returns (more: bool, done: bool)
      requires i <= |b| && close != COMMA
      modifies this`i
      ensures more == Starts(Ws(b[old(i)..]), COMMA) && done == Starts(Ws(b[old(i)..]), close)
      ensures more || done ==> i <= |b| && b[i..] == Ws(b[old(i)..])[1..]
    {
      SkipBlanks();
      more, done := i < |b| && b[i] == COMMA, i < |b| && b[i] == close;
      if more || done {
        assert b[i..][1..] == b[i + 1..];
        i := i + 1;
      }
    }

    method ScanMemberList(depth: nat) returns (err: Option<Problem>)
      requires i <= |b|
      modifies this
      ensures Matches(ScanMembers(b[old(i)..], depth, maxDepth), err, IsContainer)
      decreases |b| - i, 3
    {
      ghost var target := ScanMembers(b[i..], depth, maxDepth);
      while true
        invariant old(i) <= i <= |b| && ScanMembers(b[i..], depth, maxDepth) == target
        decreases |b| - i
      {
        err := ScanOneMember(depth);
        if err.Some? {
          return;
        }
        var more, done := ScanMark(CLOSE_OBJECT);
        if !more {
          return if done then None else Some(Malformed);
        }
      }
    }

    method ScanArray(depth: nat) returns (err: Option<Problem>)
      requires i < |b| && b[i] == OPEN_ARRAY && depth <= maxDepth
      modifies this
      ensures Matches(ScanValue(b[old(i)..], depth, maxDepth), err, IsContainer)
      decreases |b| - i, 0
    {
      assert b[i..][1..] == b[i + 1..];
      i := i + 1;
      SkipBlanks();
      if i < |b| && b[i] == CLOSE_ARRAY {
        assert b[i..][1..] == b[i + 1..];
        i := i + 1;
        return None;
      }
      err := ScanItemList(depth);
    }

    method ScanItemList(depth: nat) returns (err: Option<Problem>)
      requires i <= |b|
      modifies this
      ensures Matches(ScanItems(b[old(i)..], depth, maxDepth), err, IsContainer)
      decreases |b| - i, 3
    {
      ghost var target := ScanItems(b[i..], depth, maxDepth);
      while true
        invariant old(i) <= i <= |b| && ScanItems(b[i..], depth, maxDepth) == target
        decreases |b| - i
      {
        SkipBlanks();
        var kind;
        err, kind := ScanAny(depth + 1);
        if err.Some? {
          return;
        }
        var more, done := ScanMark(CLOSE_ARRAY);
        if !more {
          return if done then None else Some(Malformed);
        }
      }
    }
  }
}
