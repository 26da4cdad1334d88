/** Decimal printing and parsing as the program gets them from `std::to_string`,
    stream output, `std::stoll` and `std::stoul`. */
module Decimal {
  import Sequences

  const TWO_63 := 0x8000_0000_0000_0000
  const TWO_64 := 0x1_0000_0000_0000_0000

  predicate Int64(n: int) { -TWO_63 <= n < TWO_63 }

  predicate Word64(n: int) { 0 <= n < TWO_64 }

  // ---------------------------------------------------------------- printing

  function DigitChar(d: int): char
    requires 0 <= d < 10
  {
    ('0' as int + d) as char
  }

  function Digits(n: nat): (s: string)
    ensures s != [] && AllDigits(s)
  {
    if n < 10 then [DigitChar(n)] else Digits(n / 10) + [DigitChar(n % 10)]
  }

  function ToString(n: int): string {
    if n < 0 then "-" + Digits(-n) else Digits(n)
  }

  // ----------------------------------------------------------------- parsing

  predicate IsDigit(c: char) { '0' <= c <= '9' }

  predicate IsSpace(c: char) { c == ' ' || '\t' <= c <= '\r' }

  predicate AllDigits(s: string) { forall k :: 0 <= k < |s| ==> IsDigit(s[k]) }

  /** How many characters from the front satisfy the test. */
  function SpaceRun(s: string): (n: nat)
    ensures n <= |s|
  {
    if s != [] && IsSpace(s[0]) then 1 + SpaceRun(s[1..]) else 0
  }

  function DigitRun(s: string): (n: nat)
    ensures n <= |s| && AllDigits(s[..n])
    ensures n < |s| ==> !IsDigit(s[n])
  {
    if s != [] && IsDigit(s[0]) then 1 + DigitRun(s[1..]) else 0
  }

  function Value(s: string): nat
    requires AllDigits(s)
  {
    if s == [] then 0 else Value(s[..|s| - 1]) * 10 + (s[|s| - 1] as int - '0' as int)
  }

  /** `Number(value, end)` or the exception. */
  datatype Parsed = Number(value: int, end: nat) | InvalidArgument | OutOfRange

  function SignLength(s: string): (n: nat)
    ensures n <= |s|
  {
    if s != [] && (s[0] == '-' || s[0] == '+') then 1 else 0
  }

  /** Leading white space, an optional sign, the longest run of digits. */
  function Scan(s: string): (p: Parsed)
    ensures !p.OutOfRange?
    ensures p.Number? ==> 0 < p.end <= |s|
  {
    var unspaced := s[SpaceRun(s)..];
    var body := unspaced[SignLength(unspaced)..];
    var run := DigitRun(body);
    if run == 0 then InvalidArgument
    else
      var magnitude: int := Value(body[..run]);
      Number(if unspaced[0] == '-' then -magnitude else magnitude, |s| - |body| + run)
  }

  function Stoll(s: string): (p: Parsed)
    ensures p.Number? ==> Int64(p.value) && 0 < p.end <= |s|
  {
    var p := Scan(s);
    if p.Number? && !Int64(p.value) then OutOfRange else p
  }

  /** A negative number wraps around; only its magnitude has to fit. */
  function Stoul(s: string): (p: Parsed)
    ensures p.Number? ==> Word64(p.value) && 0 < p.end <= |s|
  {
    var p := Scan(s);
    if !p.Number? then p
    else if p.value <= -TWO_64 || p.value >= TWO_64 then OutOfRange
    else Number(p.value % TWO_64, p.end)
  }

  // -------------------------------------------------------------- properties

  lemma {:induction false} DigitsValue(n: nat)
    ensures Value(Digits(n)) == n
  {
    var s := Digits(n);
    if n < 10 {
      assert s[..0] == [];
    } else {
      DigitsValue(n / 10);
      assert s[..|s| - 1] == Digits(n / 10);
    }
  }

  lemma {:induction false} RunOfDigits(s: string)
    requires AllDigits(s)
    ensures DigitRun(s) == |s| && SpaceRun(s) == 0 && SignLength(s) == 0
  {
    if s != [] { RunOfDigits(s[1..]); }
  }

  lemma ScanPrinted(n: int)
    ensures Scan(ToString(n)) == Number(n, |ToString(n)|)
  {
    var s := ToString(n);
    var digits := Digits(if n < 0 then -n else n);
    RunOfDigits(digits);
    DigitsValue(if n < 0 then -n else n);
    assert SpaceRun(s) == 0 && s[0..] == s;
    assert s[SignLength(s)..] == digits;
    assert digits[..|digits|] == digits;
  }

  /** Every 64-bit number is read back, and nothing of its text is left; any other
      number is refused. */
  lemma RoundTrip(n: int)
    ensures Stoll(ToString(n))
         == if -9223372036854775808 <= n <= 9223372036854775807 then Number(n, |ToString(n)|) else OutOfRange
    ensures 0 <= n <= 18446744073709551615 ==> Stoul(ToString(n)) == Number(n, |ToString(n)|)
    ensures n <= -TWO_64 || n >= TWO_64 ==> Stoul(ToString(n)) == OutOfRange
  {
    ScanPrinted(n);
    if Word64(n) { assert n % TWO_64 == n; }
  }

  /** A negative number is read back as a huge index. */
  lemma NegativeWraps(n: int)
    requires -TWO_64 < n < 0
    ensures Stoul(ToString(n)) == Number(TWO_64 + n, |ToString(n)|)
  {
    ScanPrinted(n);
    assert n % TWO_64 == TWO_64 + n;
  }

  /** Digits may start with zeros. */
  lemma {:induction false} LeadingZeros(s: string)
    requires AllDigits(s)
    ensures AllDigits("0" + s) && Value("0" + s) == Value(s)
  {
    if s != [] {
      assert ("0" + s)[..|s|] == "0" + s[..|s| - 1];
      LeadingZeros(s[..|s| - 1]);
    } else {
      assert "0" + s == "0" && "0"[..0] == [];
    }
  }

  // ------------------------------------------------------------- texts of all kinds

  /** Blank, tabulator, line feed, vertical tabulator, form feed, carriage return. */
  predicate Blanks(s: string) { forall k :: 0 <= k < |s| ==> s[k] == ' ' || 9 <= s[k] as int <= 13 }

  predicate Sign(s: string) { s == "" || s == "+" || s == "-" }

  lemma {:induction false} RunOfBlanks(blanks: string, rest: string)
    requires Blanks(blanks) && (rest == "" || !IsSpace(rest[0]))
    ensures SpaceRun(blanks + rest) == |blanks|
  {
    if blanks == "" {
      assert blanks + rest == rest;
    } else {
      RunOfBlanks(blanks[1..], rest);
      assert (blanks + rest)[1..] == blanks[1..] + rest;
    }
  }

  lemma {:induction false} RunStops(digits: string, more: string)
    requires AllDigits(digits) && (more == "" || !IsDigit(more[0]))
    ensures DigitRun(digits + more) == |digits|
  {
    if digits == "" {
      assert digits + more == more;
    } else {
      RunStops(digits[1..], more);
      assert (digits + more)[1..] == digits[1..] + more;
    }
  }

  /** The text behind the white space, and behind the sign. */
  lemma ScanParts(blanks: string, sign: string, body: string)
    requires Blanks(blanks) && Sign(sign) && (sign + body == "" || !IsSpace((sign + body)[0]))
    requires sign == "" && body != "" ==> body[0] != '+' && body[0] != '-'
    ensures var text := blanks + sign + body;
            && SpaceRun(text) == |blanks| && text[|blanks|..] == sign + body
            && SignLength(sign + body) == |sign| && (sign + body)[|sign|..] == body
  {
    assert blanks + sign + body == blanks + (sign + body);
    RunOfBlanks(blanks, sign + body);
  }

  /** White space, a sign, digits and then anything else: the number is that of the
      digits, with the sign, and what follows is left. */
  lemma ScanText(blanks: string, sign: string, digits: string, more: string)
    requires Blanks(blanks) && Sign(sign) && digits != "" && AllDigits(digits)
    requires more == "" || !IsDigit(more[0])
    ensures var magnitude: int := Value(digits);
            Scan(blanks + sign + digits + more)
            == Number(if sign == "-" then -magnitude else magnitude, |blanks| + |sign| + |digits|)
  {
    hide Value, SpaceRun, DigitRun, SignLength, Scan, AllDigits, IsDigit, IsSpace, Blanks;
    var body := digits + more;
    NumberBody(sign, digits, more);
    Sequences.Assoc(blanks + sign, digits, more);
    ScanParts(blanks, sign, body);
    MinusFirst(sign, body);
    hide Sign;
    ScanIs(blanks + sign + body, sign + body, body, digits);
  }

  lemma NumberBody(sign: string, digits: string, more: string)
    requires Sign(sign) && digits != "" && AllDigits(digits) && (more == "" || !IsDigit(more[0]))
    ensures var body := digits + more;
            && body != "" && digits <= body && IsDigit(body[0]) && body[0] != '+' && body[0] != '-'
            && !IsSpace((sign + body)[0]) && DigitRun(body) == |digits|
  {
    var body := digits + more;
    assert body[0] == digits[0] && IsDigit(digits[0]);
    RunStops(digits, more);
  }

  lemma MinusFirst(sign: string, body: string)
    requires Sign(sign) && body != "" && IsDigit(body[0])
    ensures (sign + body)[0] == '-' <==> sign == "-"
  {
  }

  lemma ScanIs(text: string, unspaced: string, body: string, digits: string)
    requires unspaced == text[SpaceRun(text)..] && body == unspaced[SignLength(unspaced)..]
    requires digits != "" && digits <= body && DigitRun(body) == |digits| && AllDigits(digits)
    ensures var magnitude: int := Value(digits);
            Scan(text) == Number(if unspaced[0] == '-' then -magnitude else magnitude, |text| - |body| + |digits|)
  {
    hide Value, SpaceRun, DigitRun, SignLength;
    assert body[..|digits|] == digits;
  }

  /** Without a digit there is no number. */
  lemma ScanNothing(blanks: string, sign: string, more: string)
    requires Blanks(blanks) && Sign(sign) && (more == "" || !IsDigit(more[0]))
    requires sign == "" && more != "" ==> !IsSpace(more[0]) && more[0] != '+' && more[0] != '-'
    ensures Scan(blanks + sign + more) == InvalidArgument
  {
    hide SpaceRun, DigitRun, SignLength;
    ScanParts(blanks, sign, more);
    RunStops("", more);
    assert "" + more == more;
  }

  predicate Avoids(s: string, c: char) { forall k :: 0 <= k < |s| ==> s[k] != c }

  /** Printed numbers contain no separator of the wire formats. */
  lemma PrintedCharacters(n: int)
    ensures ToString(n) != [] && Avoids(ToString(n), '\n') && Avoids(ToString(n), ',') && Avoids(ToString(n), '=')
  {
    assert AllDigits(Digits(if n < 0 then -n else n));
  }
}
