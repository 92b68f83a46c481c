/** Decimal text of fixed-width integers, as strconv prints and parses it, and the
    reading of the persisted resourceVersion file. */
module Decimal {
  import opened Options

  const MAX_UINT64: nat := 0xFFFF_FFFF_FFFF_FFFF
  const MIN_INT64: int := -0x8000_0000_0000_0000
  const MAX_INT64: int := 0x7FFF_FFFF_FFFF_FFFF

  predicate IsDigit(c: char) {
    '0' <= c <= '9'
  }

  predicate AllDigits(s: string) {
    forall i :: 0 <= i < |s| ==> IsDigit(s[i])
  }

  function DigitChar(d: nat): (c: char)
    requires d < 10
  {
    ('0' as int + d) as char
  }

  function DigitValue(c: char): (d: nat)
    requires IsDigit(c)
  {
    c as int - '0' as int
  }

  // strconv.FormatUint(n, 10).
  function FormatUint(n: nat): (s: string)
    ensures |s| > 0 && AllDigits(s)
  {
    if n < 10 then [DigitChar(n)] else FormatUint(n / 10) + [DigitChar(n % 10)]
  }

  function DigitsValue(s: string): nat
    requires AllDigits(s)
  {
    if s == "" then 0 else 10 * DigitsValue(s[..|s| - 1]) + DigitValue(s[|s| - 1])
  }

  // strconv.ParseUint(s, 10, 64): no sign, no blanks, in range.
  function ParseUint(s: string): Option<nat> {
    if |s| > 0 && AllDigits(s) && DigitsValue(s) <= MAX_UINT64 then Some(DigitsValue(s)) else None
  }

  // strconv.FormatInt(n, 10).
  function FormatInt(n: int): string {
    if n < 0 then "-" + FormatUint(-n) else FormatUint(n)
  }

  // strconv.ParseInt(s, 10, 64): an optional sign, then digits, in range.
  function ParseInt(s: string): Option<int> {
    if s == "" then None
    else
      var signed := s[0] == '-' || s[0] == '+';
      match ParseUint(if signed then s[1..] else s)
      case None => None
      case Some(m) =>
        var magnitude: int := m;
        var n := if s[0] == '-' then -magnitude else magnitude;
        if MIN_INT64 <= n <= MAX_INT64 then Some(n) else None
  }

  lemma {:induction false} DigitsRoundTrip(n: nat)
    ensures DigitsValue(FormatUint(n)) == n
  {
    if n >= 10 {
      DigitsRoundTrip(n / 10);
      var s := FormatUint(n);
      assert s[..|s| - 1] == FormatUint(n / 10);
    }
  }

  lemma UintRoundTrip(n: nat)
    requires n <= MAX_UINT64
    ensures ParseUint(FormatUint(n)) == Some(n)
  {
    DigitsRoundTrip(n);
  }

  // Every int64 survives printing and parsing, the smallest one included.
  lemma IntRoundTrip(n: int)
    requires MIN_INT64 <= n <= MAX_INT64
    ensures ParseInt(FormatInt(n)) == Some(n) && FormatInt(n) != ""
  {
    if n < 0 {
      UintRoundTrip(-n);
      assert FormatInt(n)[1..] == FormatUint(-n);
    } else {
      UintRoundTrip(n);
      assert IsDigit(FormatUint(n)[0]);
    }
  }

  // Texts are decimal, with the most significant digit first and without leading zeros. The
  // parsers take leading zeros, and one of them a sign.
  lemma DecimalTexts()
    ensures FormatUint(0) == "0" && FormatUint(120) == "120" && FormatInt(-120) == "-120"
    ensures ParseUint("0120") == Some(120) && ParseInt("+0120") == Some(120)
    ensures ParseUint("") == None && ParseUint("+1") == None && ParseUint(" 1") == None && ParseUint("1a") == None
    ensures ParseInt("") == None && ParseInt("-") == None && ParseInt(" 1") == None && ParseInt("--1") == None
  {
    assert FormatUint(12) == FormatUint(1) + [DigitChar(2)];
    assert FormatUint(120) == FormatUint(12) + [DigitChar(0)];
    assert "0120"[..3] == "012" && "012"[..2] == "01" && "01"[..1] == "0" && "0"[..0] == "";
    assert "+0120"[1..] == "0120";
    assert !IsDigit("+1"[0]) && !IsDigit(" 1"[0]) && !IsDigit("1a"[1]);
    assert "-"[1..] == "" && "--1"[1..] == "-1" && !IsDigit("-1"[0]);
  }

  // Numbers out of range are refused.
  lemma OutOfRange(n: int)
    requires n < MIN_INT64 || n > MAX_INT64
    ensures ParseInt(FormatInt(n)) == None
    ensures n > MAX_UINT64 ==> ParseUint(FormatUint(n)) == None
  {
    DigitsRoundTrip(if n < 0 then -n else n);
    if n < 0 {
      assert FormatInt(n)[1..] == FormatUint(-n);
    } else {
      assert IsDigit(FormatUint(n)[0]);
    }
  }

  // White space as Unicode defines it.
  predicate IsSpace(c: char) {
    var n := c as int;
    || 9 <= n <= 13 || n == 0x20 || n == 0x85 || n == 0xA0 || n == 0x1680 || 0x2000 <= n <= 0x200A
    || n == 0x2028 || n == 0x2029 || n == 0x202F || n == 0x205F || n == 0x3000
  }

  // strings.TrimSpace.
  function TrimSpace(s: string): string {
    if s == "" then s
    else if IsSpace(s[0]) then TrimSpace(s[1..])
    else if IsSpace(s[|s| - 1]) then TrimSpace(s[..|s| - 1])
    else s
  }

  // What NewCounter reads back from the .rv file: 1 when the file is absent or
  // blank, never less than 1, no value when the text is not a uint64.
  function LoadRV(file: Option<string>): Option<nat> {
    match file
    case None => Some(1)
    case Some(text) =>
      var str := TrimSpace(text);
      if str == "" then Some(1)
      else
        match ParseUint(str)
        case None => None
        case Some(v) => Some(if v < 1 then 1 else v)
  }

  // White space on either side does not count.
  lemma LoadPadded(rv: nat)
    requires rv <= MAX_UINT64
    ensures LoadRV(Some("\t" + FormatUint(rv))) == LoadRV(Some(FormatUint(rv) + "\n")) == Some(if rv < 1 then 1 else rv)
  {
    var s := FormatUint(rv);
    LoadFormatted(rv);
    assert IsDigit(s[0]) && IsDigit(s[|s| - 1]);
    assert TrimSpace(s) == s;
    assert ("\t" + s)[1..] == s && (s + "\n")[..|s|] == s;
  }

  // Without a file, or with a blank one, versions start at 1.
  lemma LoadBlank(text: string)
    requires forall i :: 0 <= i < |text| ==> text[i] in " \t\r\n"
    ensures LoadRV(None) == LoadRV(Some(text)) == Some(1)
  {
    BlankTrimmed(text);
  }

  lemma {:induction false} BlankTrimmed(text: string)
    requires forall i :: 0 <= i < |text| ==> text[i] in " \t\r\n"
    ensures TrimSpace(text) == ""
  {
    if text != "" {
      BlankTrimmed(text[1..]);
    }
  }

  // A persisted resourceVersion is read back unchanged.
  lemma LoadFormatted(rv: nat)
    requires rv <= MAX_UINT64
    ensures LoadRV(Some(FormatUint(rv))) == Some(if rv < 1 then 1 else rv)
  {
    var s := FormatUint(rv);
    UintRoundTrip(rv);
    assert IsDigit(s[0]) && IsDigit(s[|s| - 1]);
    assert TrimSpace(s) == s;
  }
}
