/**
  The string operations the event mapping relies on: strings.TrimSpace, strings.ToUpper,
  strconv.FormatInt in base 10 and the %d verb of fmt.Sscanf on an unsigned target.
 */
module Text {
  import opened Results

  /** Unicode White_Space, the set used by both strings.TrimSpace and fmt.Sscanf. */
  predicate IsSpace(c: char) {
    var n := c as int;
    || 0x09 <= n <= 0x0D || n == 0x20 || n == 0x85 || n == 0xA0 || n == 0x1680
    || 0x2000 <= n <= 0x200A || n == 0x2028 || n == 0x2029 || n == 0x202F || n == 0x205F || n == 0x3000
  }

  function TrimLeft(s: string): (r: string) {
    if s != "" && IsSpace(s[0]) then TrimLeft(s[1..]) else s
  }

  function TrimRight(s: string): (r: string) {
    if s != "" && IsSpace(s[|s| - 1]) then TrimRight(s[..|s| - 1]) else s
  }

  function TrimSpace(s: string): (r: string) {
    TrimRight(TrimLeft(s))
  }

  /** No white space at either end. */
  predicate IsTrimmed(s: string) {
    s == "" || (!IsSpace(s[0]) && !IsSpace(s[|s| - 1]))
  }

  lemma {:induction false} TrimLeftStart(s: string)
    ensures TrimLeft(s) == "" || !IsSpace(TrimLeft(s)[0])
    decreases |s|
  {
    if s != "" && IsSpace(s[0]) { TrimLeftStart(s[1..]); }
  }

  lemma {:induction false} TrimRightEnd(s: string)
    ensures TrimRight(s) <= s
    ensures TrimRight(s) == "" || !IsSpace(TrimRight(s)[|TrimRight(s)| - 1])
    decreases |s|
  {
    if s != "" && IsSpace(s[|s| - 1]) { TrimRightEnd(s[..|s| - 1]); }
  }

  /** TrimSpace leaves nothing to trim, and trimmed text is left alone: it is a projection. */
  lemma TrimSpaceProjects(s: string)
    ensures IsTrimmed(TrimSpace(s))
    ensures IsTrimmed(s) ==> TrimSpace(s) == s
  {
    TrimLeftStart(s);
    TrimRightEnd(TrimLeft(s));
  }

  /** Nothing but white space. */
  predicate Blank(s: string) { forall i :: 0 <= i < |s| ==> IsSpace(s[i]) }

  lemma {:induction false} TrimLeftOf(a: string, rest: string)
    requires Blank(a) && (rest == "" || !IsSpace(rest[0]))
    ensures TrimLeft(a + rest) == rest
    decreases |a|
  {
    if a == "" {
      assert a + rest == rest;
    } else {
      assert (a + rest)[1..] == a[1..] + rest;
      TrimLeftOf(a[1..], rest);
    }
  }

  lemma {:induction false} TrimRightOf(rest: string, b: string)
    requires Blank(b) && (rest == "" || !IsSpace(rest[|rest| - 1]))
    ensures TrimRight(rest + b) == rest
    decreases |b|
  {
    if b == "" {
      assert rest + b == rest;
    } else {
      assert (rest + b)[..|rest + b| - 1] == rest + b[..|b| - 1];
      TrimRightOf(rest, b[..|b| - 1]);
    }
  }

  /** What trimming leaves: the text between the white space at its two ends. */
  lemma TrimSpaceOf(a: string, core: string, b: string)
    requires Blank(a) && Blank(b) && IsTrimmed(core)
    ensures TrimSpace(a + core + b) == core
  {
    if core == "" {
      assert a + core + b == (a + b) + "";
      TrimLeftOf(a + b, "");
    } else {
      assert a + core + b == a + (core + b);
      TrimLeftOf(a, core + b);
      TrimRightOf(core, b);
    }
  }

  lemma {:induction false} TrimLeftCuts(s: string) returns (a: string)
    ensures Blank(a) && s == a + TrimLeft(s)
    decreases |s|
  {
    a := "";
    if s != "" && IsSpace(s[0]) {
      a := TrimLeftCuts(s[1..]);
      a := [s[0]] + a;
      assert s == [s[0]] + s[1..];
    }
  }

  lemma {:induction false} TrimRightCuts(s: string) returns (b: string)
    ensures Blank(b) && s == TrimRight(s) + b
    decreases |s|
  {
    b := "";
    if s != "" && IsSpace(s[|s| - 1]) {
      b := TrimRightCuts(s[..|s| - 1]);
      b := b + [s[|s| - 1]];
      assert s == s[..|s| - 1] + [s[|s| - 1]];
    }
  }

  /** Every text is such a text; trimming leaves nothing of it exactly when it is blank. */
  lemma TrimSpaceCuts(s: string) returns (a: string, b: string)
    ensures Blank(a) && Blank(b) && s == a + TrimSpace(s) + b
    ensures TrimSpace(s) == "" <==> Blank(s)
  {
    a := TrimLeftCuts(s);
    b := TrimRightCuts(TrimLeft(s));
    if Blank(s) {
      TrimSpaceOf(s, "", "");
      assert s + "" + "" == s;
    }
  }

  /** The twenty-five characters of white space; of the ASCII ones, the tab to the carriage return and the space. */
  lemma SpaceIs(c: char)
    ensures IsSpace(c) <==> c as int in {9, 10, 11, 12, 13, 32, 133, 160, 5760,
                                         8192, 8193, 8194, 8195, 8196, 8197, 8198, 8199, 8200, 8201, 8202,
                                         8232, 8233, 8239, 8287, 12288}
    ensures c as int < 128 ==> (IsSpace(c) <==> c == ' ' || '\t' <= c <= '\r')
  {
  }

  /**
    Upper-casing. Letters outside ASCII are left alone, except the two whose upper case is an ASCII
    letter (dotless i and long s), which is what decides whether a log level is a known one.
   */
  function UpperChar(c: char): (r: char) {
    if 'a' <= c <= 'z' then ((c as int) - 32) as char
    else if c as int == 0x131 then 'I'
    else if c as int == 0x17F then 'S'
    else c
  }

  function ToUpper(s: string): (r: string)
    ensures |r| == |s| && forall i :: 0 <= i < |s| ==> r[i] == UpperChar(s[i])
  {
    seq(|s|, i requires 0 <= i < |s| => UpperChar(s[i]))
  }

  /** Upper-casing is idempotent and keeps the ends of a trimmed string non-blank. */
  lemma ToUpperProjects(s: string)
    ensures ToUpper(ToUpper(s)) == ToUpper(s)
    ensures IsTrimmed(s) ==> IsTrimmed(ToUpper(s))
  {
    assert forall c: char :: UpperChar(UpperChar(c)) == UpperChar(c);
    assert forall c: char :: IsSpace(UpperChar(c)) == IsSpace(c);
  }

  /**
    The text is the name in letters of either case: each character is the letter of the name, its lower case, or
    one of the two others whose upper case it is.
   */
  predicate Spells(text: string, name: string) {
    |text| == |name| && forall i :: 0 <= i < |text| ==>
      || text[i] == name[i]
      || text[i] as int == name[i] as int + 32
      || (text[i] as int == 0x131 && name[i] == 'I')
      || (text[i] as int == 0x17F && name[i] == 'S')
  }

  lemma UpperCaseSpells(text: string, name: string)
    requires forall i :: 0 <= i < |name| ==> 'A' <= name[i] <= 'Z'
    ensures ToUpper(text) == name <==> Spells(text, name)
  {
    if Spells(text, name) {
      assert forall i :: 0 <= i < |text| ==> ToUpper(text)[i] == name[i];
    }
  }

  predicate IsDigit(c: char) { '0' <= c <= '9' }

  /** The decimal digits of n, most significant first. */
  function FormatNat(n: nat): (r: string)
    ensures r != "" && forall i :: 0 <= i < |r| ==> IsDigit(r[i])
    decreases n
  {
    var last := (('0' as int) + n % 10) as char;
    if n < 10 then [last] else FormatNat(n / 10) + [last]
  }

  /** strconv.FormatInt(n, 10). */
  function FormatInt(n: int): (r: string) {
    if n < 0 then "-" + FormatNat(-n) else FormatNat(n)
  }

  /** The value of a run of decimal digits. */
  function DigitsValue(s: string): (r: nat)
    requires forall i :: 0 <= i < |s| ==> IsDigit(s[i])
    decreases |s|
  {
    if s == "" then 0
    else
      assert IsDigit(s[|s| - 1]);
      10 * DigitsValue(s[..|s| - 1]) + (s[|s| - 1] as int - '0' as int)
  }

  function DigitPrefix(s: string): (r: string)
    ensures r <= s && forall i :: 0 <= i < |r| ==> IsDigit(r[i])
    ensures |r| < |s| ==> !IsDigit(s[|r|])
    decreases |s|
  {
    if s == "" || !IsDigit(s[0]) then "" else [s[0]] + DigitPrefix(s[1..])
  }

  /** Sscanf skips white space before a verb, but a newline is an error. */
  function SkipSpace(s: string): (r: Option<string>)
    decreases |s|
  {
    if s == "" then Some(s)
    else if s[0] == '\r' && |s| > 1 && s[1] == '\n' then None
    else if s[0] == '\n' then None
    else if IsSpace(s[0]) then SkipSpace(s[1..])
    else Some(s)
  }

  const MAX_UINT64: nat := 0xFFFF_FFFF_FFFF_FFFF

  /**
    fmt.Sscanf(s, "%d", &n) with n a uint64: leading space, then at least one digit, no sign,
    the longest run of digits, out of range is an error and trailing input is ignored.
   */
  function ScanUint(s: string): (r: Option<nat>)
    ensures r.Some? ==> r.value <= MAX_UINT64
  {
    match SkipSpace(s)
    case None => None
    case Some(rest) =>
      var digits := DigitPrefix(rest);
      if digits == "" then None
      else if DigitsValue(digits) > MAX_UINT64 then None
      else Some(DigitsValue(digits))
  }

  lemma {:induction false} FormatNatValue(n: nat)
    ensures DigitsValue(FormatNat(n)) == n
    decreases n
  {
    if n >= 10 {
      FormatNatValue(n / 10);
      assert FormatNat(n)[..|FormatNat(n)| - 1] == FormatNat(n / 10);
    }
  }

  lemma {:induction false} DigitPrefixOfDigits(s: string)
    requires forall i :: 0 <= i < |s| ==> IsDigit(s[i])
    ensures DigitPrefix(s) == s
    decreases |s|
  {
    if s != "" { DigitPrefixOfDigits(s[1..]); }
  }

  /**
    Printing an integer and scanning it back as an unsigned one: a non-negative integer in range comes
    back unchanged, every other integer is refused rather than truncated.
   */
  lemma FormatThenScan(n: int)
    ensures ScanUint(FormatInt(n)) == if 0 <= n <= MAX_UINT64 then Some(n) else None
  {
    var s := FormatInt(n);
    if n >= 0 {
      FormatNatValue(n);
      DigitPrefixOfDigits(s);
      assert SkipSpace(s) == Some(s);
    } else {
      assert s[0] == '-';
      assert SkipSpace(s) == Some(s);
      assert DigitPrefix(s) == "";
    }
  }

  lemma {:induction false} SkipSpaceOf(space: string, rest: string)
    requires Blank(space) && '\n' !in space && (rest == "" || !IsSpace(rest[0]))
    ensures SkipSpace(space + rest) == Some(rest)
    decreases |space|
  {
    if space == "" {
      assert space + rest == rest;
    } else {
      assert (space + rest)[1..] == space[1..] + rest;
      SkipSpaceOf(space[1..], rest);
    }
  }

  lemma {:induction false} SkipSpaceStops(space: string, rest: string)
    requires Blank(space)
    ensures SkipSpace(space + "\n" + rest) == None
    decreases |space|
  {
    var s := space + "\n" + rest;
    if space == "" {
      assert s[0] == '\n';
    } else {
      assert s[1..] == space[1..] + "\n" + rest;
      SkipSpaceStops(space[1..], rest);
    }
  }

  lemma {:induction false} DigitPrefixOf(digits: string, rest: string)
    requires (forall i :: 0 <= i < |digits| ==> IsDigit(digits[i])) && (rest == "" || !IsDigit(rest[0]))
    ensures DigitPrefix(digits + rest) == digits
    decreases |digits|
  {
    if digits == "" {
      assert digits + rest == rest;
    } else {
      assert (digits + rest)[1..] == digits[1..] + rest;
      DigitPrefixOf(digits[1..], rest);
    }
  }

  /**
    What scanning reads: the number after any white space but a newline, up to the first character that is no
    digit; a number of more than 64 bits is refused, and so is a text that does not begin with a digit then.
   */
  lemma ScanReads(space: string, digits: string, rest: string)
    requires Blank(space) && (forall i :: 0 <= i < |digits| ==> IsDigit(digits[i]))
    requires rest == "" || !IsDigit(rest[0])
    ensures digits != "" && '\n' !in space ==>
              ScanUint(space + digits + rest) ==
              if DigitsValue(digits) <= 18_446_744_073_709_551_615 then Some(DigitsValue(digits)) else None
    ensures rest != "" && !IsSpace(rest[0]) ==> ScanUint(space + rest) == None
    ensures ScanUint(space + "\n" + digits + rest) == None
  {
    SkipSpaceStops(space, digits + rest);
    assert space + "\n" + digits + rest == space + "\n" + (digits + rest);
    if digits != "" && '\n' !in space {
      assert space + digits + rest == space + (digits + rest);
      SkipSpaceOf(space, digits + rest);
      DigitPrefixOf(digits, rest);
    }
    if rest != "" && !IsSpace(rest[0]) {
      ScanOfNoDigit(space, rest);
    }
  }

  lemma ScanOfNoDigit(space: string, rest: string)
    requires Blank(space) && rest != "" && !IsSpace(rest[0]) && !IsDigit(rest[0])
    ensures ScanUint(space + rest) == None
  {
    if i :| 0 <= i < |space| && space[i] == '\n' {
      var a, b := space[..i], space[i + 1..] + rest;
      assert space + rest == a + "\n" + b;
      SkipSpaceStops(a, b);
    } else {
      SkipSpaceOf(space, rest);
      assert DigitPrefix(rest) == "";
    }
  }

  /** The value of a number in decimal digits, from the left. */
  lemma DecimalDigits(digits: string, last: char)
    requires (forall i :: 0 <= i < |digits| ==> IsDigit(digits[i])) && IsDigit(last)
    ensures DigitsValue("") == 0
    ensures DigitsValue(digits + [last]) == 10 * DigitsValue(digits) + (last as int - '0' as int)
  {
    assert (digits + [last])[..|digits|] == digits;
  }

  /** Printed numbers are decimal, without leading zeros, and negative ones begin with a minus sign. */
  lemma {:induction false} PrintedDecimal(n: int)
    requires n >= 0
    ensures DigitsValue(FormatInt(n)) == n
    ensures n > 0 ==> FormatInt(n)[0] != '0' && FormatInt(-n) == "-" + FormatInt(n)
    ensures FormatInt(0) == "0"
    decreases n
  {
    FormatNatValue(n);
    if n >= 10 { PrintedDecimal(n / 10); }
  }
}
