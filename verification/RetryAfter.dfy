/** `parse_retry_after`: the effective backoff from a `Retry-After` header
    (the delay-seconds form of section 7.1.3 of RFC 7231). */
module RetryAfter {
  import opened Common

  predicate IsSpace(c: char) {
    c in " \t\n\r" || c == 11 as char || c == 12 as char || (28 as char <= c <= 31 as char)
  }

  /** The ASCII characters that `strip()` removes: tab to carriage return, the four separators, and space. */
  lemma SpaceColumns(c: char)
    ensures IsSpace(c) <==> 9 <= c as int <= 13 || 28 <= c as int <= 32
  {
  }

  function StripLeft(s: string): string {
    if s != "" && IsSpace(s[0]) then StripLeft(s[1..]) else s
  }

  function StripRight(s: string): string {
    if s != "" && IsSpace(s[|s| - 1]) then StripRight(s[..|s| - 1]) else s
  }

  function Strip(s: string): string {
    StripRight(StripLeft(s))
  }

  /** Digits, with single underscores allowed between two of them: the numerals `int()` reads. */
  predicate Numeral(s: string) {
    && s != ""
    && IsDigit(s[0]) && IsDigit(s[|s| - 1])
    && (forall i | 0 <= i < |s| :: IsDigit(s[i]) || s[i] == '_')
    && (forall i | 0 <= i < |s| - 1 :: !(s[i] == '_' && s[i + 1] == '_'))
  }

  function DropUnderscores(s: string): (d: string)
    requires forall i | 0 <= i < |s| :: IsDigit(s[i]) || s[i] == '_'
    ensures forall c | c in d :: IsDigit(c)
  {
    if s == "" then ""
    else
      DropUnderscores(s[..|s| - 1]) + (if s[|s| - 1] == '_' then "" else [s[|s| - 1]])
  }

  /** The number a numeral without a sign denotes. */
  function Unsigned(s: string): Option<int> {
    if Numeral(s) then Some(DecimalValue(DropUnderscores(s))) else None
  }

  /** `int(candidate)`; `None` stands for the ValueError. */
  function ParseInt(s: string): Option<int> {
    if s != "" && s[0] == '-' && Unsigned(s[1..]).Some? then Some(-Unsigned(s[1..]).value)
    else if s != "" && s[0] == '+' && Unsigned(s[1..]).Some? then Some(Unsigned(s[1..]).value)
    else if Unsigned(s).Some? then Some(Unsigned(s).value)
    else None
  }

  function ParseRetryAfter(header: Option<string>, ownMin: int): int {
    if header.None? || header.value == "" then ownMin
    else
      var candidate := Strip(header.value);
      if candidate == "" then ownMin
      else
        match ParseInt(candidate)
        case None => ownMin
        case Some(parsed) => if parsed < 0 then ownMin else Max(ownMin, parsed)
  }

  lemma {:induction false} StripLeftPadding(pad: string, s: string)
    requires forall c | c in pad :: IsSpace(c)
    requires s == "" || !IsSpace(s[0])
    ensures StripLeft(pad + s) == s
  {
    if pad == "" {
      assert pad + s == s;
    } else {
      assert (pad + s)[1..] == pad[1..] + s;
      StripLeftPadding(pad[1..], s);
    }
  }

  lemma {:induction false} StripRightPadding(s: string, pad: string)
    requires forall c | c in pad :: IsSpace(c)
    requires s == "" || !IsSpace(s[|s| - 1])
    ensures StripRight(s + pad) == s
  {
    if pad == "" {
      assert s + pad == s;
    } else {
      assert (s + pad)[..|s + pad| - 1] == s + pad[..|pad| - 1];
      StripRightPadding(s, pad[..|pad| - 1]);
    }
  }

  lemma {:induction false} NothingToDrop(s: string)
    requires forall c | c in s :: IsDigit(c)
    ensures DropUnderscores(s) == s
  {
    if s != "" {
      assert s[|s| - 1] in s;
      NothingToDrop(s[..|s| - 1]);
      assert s == s[..|s| - 1] + [s[|s| - 1]];
    }
  }

  lemma StripPadding(before: string, core: string, after: string)
    requires forall c | c in before :: IsSpace(c)
    requires forall c | c in after :: IsSpace(c)
    requires core != "" && !IsSpace(core[0]) && !IsSpace(core[|core| - 1])
    ensures Strip(before + core + after) == core
  {
    assert before + core + after == before + (core + after);
    assert (core + after)[0] == core[0];
    StripLeftPadding(before, core + after);
    StripRightPadding(core, after);
  }

  lemma DigitsAreNumeral(s: string)
    requires s != "" && forall c | c in s :: IsDigit(c)
    ensures Numeral(s)
  {
    forall i | 0 <= i < |s| ensures IsDigit(s[i]) { assert s[i] in s; }
  }

  lemma UnsignedOfDigits(s: string)
    requires Numeral(s) && forall c | c in s :: IsDigit(c)
    ensures Unsigned(s) == Some(DecimalValue(s))
  {
    NothingToDrop(s);
  }

  /** `int()` reads a plain string of digits as the number it denotes. */
  lemma ParseIntOfDigits(s: string)
    requires s != "" && forall c | c in s :: IsDigit(c)
    ensures ParseInt(s) == Some(DecimalValue(s))
  {
    DigitsAreNumeral(s);
    UnsignedOfDigits(s);
    PlainNumeral(s);
  }

  lemma {:induction false} DropAppend(a: string, b: string)
    requires forall i | 0 <= i < |a| :: IsDigit(a[i]) || a[i] == '_'
    requires forall i | 0 <= i < |b| :: IsDigit(b[i]) || b[i] == '_'
    ensures DropUnderscores(a + b) == DropUnderscores(a) + DropUnderscores(b)
  {
    if b == "" {
      assert a + b == a;
    } else {
      var n := |b| - 1;
      DropAppend(a, b[..n]);
      assert (a + b)[..|a + b| - 1] == a + b[..n];
    }
  }

  lemma PlainNumeral(s: string)
    requires Numeral(s)
    ensures ParseInt(s) == Unsigned(s)
  {
  }

  /** `int()` also reads a sign in front of any numeral. */
  lemma ParseIntOfSigned(s: string)
    requires Numeral(s)
    ensures ParseInt(s).Some? && ParseInt("+" + s) == ParseInt(s) && ParseInt("-" + s) == Some(-ParseInt(s).value)
  {
    PlainNumeral(s);
    assert ("+" + s)[1..] == s && ("-" + s)[1..] == s;
  }

  lemma DropOne(a: string)
    requires forall i | 0 <= i < |a| :: IsDigit(a[i]) || a[i] == '_'
    ensures DropUnderscores(a + "_") == DropUnderscores(a)
  {
    assert (a + "_")[..|a + "_"| - 1] == a;
  }

  lemma DropGrouped(a: string, b: string)
    requires (forall i | 0 <= i < |a| :: IsDigit(a[i])) && (forall i | 0 <= i < |b| :: IsDigit(b[i]))
    ensures DropUnderscores(a + "_" + b) == DropUnderscores(a) + DropUnderscores(b)
  {
    DropOne(a);
    DropAppend(a + "_", b);
  }

  lemma UnsignedOfGrouped(a: string, b: string)
    requires a != "" && b != "" && (forall c | c in a :: IsDigit(c)) && (forall c | c in b :: IsDigit(c))
    requires Numeral(a + "_" + b) && forall c | c in a + b :: IsDigit(c)
    ensures Unsigned(a + "_" + b) == Some(DecimalValue(a + b))
  {
    forall i | 0 <= i < |a| ensures IsDigit(a[i]) { assert a[i] in a; }
    forall i | 0 <= i < |b| ensures IsDigit(b[i]) { assert b[i] in b; }
    DropGrouped(a, b);
    NothingToDrop(a);
    NothingToDrop(b);
  }

  /** Underscores may stand between digits, one at a time. */
  lemma ParseIntOfGrouped(a: string, b: string)
    requires a != "" && b != "" && (forall c | c in a :: IsDigit(c)) && (forall c | c in b :: IsDigit(c))
    ensures (forall c | c in a + b :: IsDigit(c)) && ParseInt(a + "_" + b) == Some(DecimalValue(a + b))
  {
    forall i | 0 <= i < |a| ensures IsDigit(a[i]) { assert a[i] in a; }
    forall i | 0 <= i < |b| ensures IsDigit(b[i]) { assert b[i] in b; }
    GroupedIsNumeral(a, b);
    UnsignedOfGrouped(a, b);
    PlainNumeral(a + "_" + b);
  }

  lemma DoubleUnderscoreIsRefused(a: string, b: string)
    requires a != "" && forall i | 0 <= i < |a| :: IsDigit(a[i])
    ensures ParseInt(a + "__" + b) == None
  {
    var t := a + "__" + b;
    assert t[0] == a[0] && t[|a|] == '_' && t[|a| + 1] == '_';
  }

  lemma GroupedIsNumeral(a: string, b: string)
    requires a != "" && b != "" && (forall i | 0 <= i < |a| :: IsDigit(a[i])) && (forall i | 0 <= i < |b| :: IsDigit(b[i]))
    ensures Numeral(a + "_" + b)
  {
  }

  /** A header holding a number of seconds, in any string of digits, however padded, is
      honoured: the wait is the larger of it and the server's own minimum. */
  lemma HonoursDelaySeconds(before: string, digits: string, after: string, ownMin: int)
    requires forall c | c in before :: IsSpace(c)
    requires forall c | c in after :: IsSpace(c)
    requires digits != "" && forall c | c in digits :: IsDigit(c)
    ensures ParseRetryAfter(Some(before + digits + after), ownMin) == Max(ownMin, DecimalValue(digits))
  {
    assert digits[0] in digits && digits[|digits| - 1] in digits;
    StripPadding(before, digits, after);
    ParseIntOfDigits(digits);
  }

  /** The server's polite minimum always wins, and only a header that spells an
      integer can lengthen the wait, to exactly the integer it spells. */
  lemma NeverBelowOwnMinimum(header: Option<string>, ownMin: int)
    ensures ParseRetryAfter(header, ownMin) >= ownMin
    ensures ParseRetryAfter(header, ownMin) > ownMin <==>
            header.Some? && ParseInt(Strip(header.value)).Some? && ParseInt(Strip(header.value)).value > ownMin
              && ParseInt(Strip(header.value)).value >= 0
    ensures ParseRetryAfter(header, ownMin) > ownMin ==>
            Some(ParseRetryAfter(header, ownMin)) == ParseInt(Strip(header.value))
  {
  }
}
