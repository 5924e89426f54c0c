/** The two `fmt` verbs the client uses to build URLs and error messages:
    `%d` on a Go `int` and `%q` on a Go `string` (which delegates to
    `strconv.Quote`). Each formatter is paired with a parser that inverts it,
    so that the model can state that a formatted value loses no information. */
module Text {
  import opened Wrappers

  predicate IsDigit(c: char) {
    '0' <= c <= '9'
  }

  predicate AllDigits(s: string) {
    forall i :: 0 <= i < |s| ==> IsDigit(s[i])
  }

  function DigitChar(d: nat): (c: char)
    requires d < 10
    ensures IsDigit(c) && c as int - '0' as int == d
  {
    ('0' as int + d) as char
  }

  /** Decimal digits of a natural number, most significant first, no leading zeros. */
  function NatToDecimal(n: nat): (s: string)
    ensures 0 < |s|
    ensures AllDigits(s)
    ensures n < 10 <==> |s| == 1
    ensures 0 < n ==> s[0] != '0'
    decreases n
  {
    if n < 10 then [DigitChar(n)] else NatToDecimal(n / 10) + [DigitChar(n % 10)]
  }

  /** Go's `%d` on an `int`: a minus sign for negative values, then the digits. */
  function IntToDecimal(n: int): (s: string)
    ensures 0 < |s|
    ensures forall i :: 0 <= i < |s| ==> IsDigit(s[i]) || (i == 0 && s[i] == '-')
    ensures s[0] == '-' <==> n < 0
    ensures s[0] == '-' ==> 1 < |s| && s[1] != '0'
    ensures 1 < |s| && s[0] != '-' ==> s[0] != '0'
  {
    if n < 0 then "-" + NatToDecimal(-n) else NatToDecimal(n)
  }

  /** The value of a string of decimal digits (the empty string is 0). */
  function DigitsValue(s: string): nat
    requires AllDigits(s)
  {
    if |s| == 0 then 0 else 10 * DigitsValue(s[..|s| - 1]) + (s[|s| - 1] as int - '0' as int)
  }

  /** Reads back what `IntToDecimal` writes: an optional minus sign followed by
      at least one digit. */
  function ParseDecimal(s: string): (r: Option<int>)
    ensures r.Some? ==> 0 < |s| && forall i :: 0 <= i < |s| ==> IsDigit(s[i]) || (i == 0 && s[i] == '-')
    ensures r.Some? && 0 < |s| && IsDigit(s[0]) ==> 0 <= r.value
  {
    if 1 < |s| && s[0] == '-' && AllDigits(s[1..]) then Some(-(DigitsValue(s[1..]) as int))
    else if 0 < |s| && AllDigits(s) then Some(DigitsValue(s))
    else None
  }

  lemma {:induction false} NatToDecimalRoundTrip(n: nat)
    ensures DigitsValue(NatToDecimal(n)) == n
    decreases n
  {
    if n >= 10 {
      var s := NatToDecimal(n);
      assert s[..|s| - 1] == NatToDecimal(n / 10);
      NatToDecimalRoundTrip(n / 10);
    }
  }

  /** `%d` is invertible: the decimal text of an integer parses back to it. */
  lemma DecimalRoundTrip(n: int)
    ensures ParseDecimal(IntToDecimal(n)) == Some(n)
  {
    if n < 0 {
      NegativeDecimalRoundTrip(n);
    } else {
      var s := NatToDecimal(n);
      assert IntToDecimal(n) == s;
      assert AllDigits(s) && IsDigit(s[0]);
      NatToDecimalRoundTrip(n);
    }
  }

  lemma NegativeDecimalRoundTrip(n: int)
    requires n < 0
    ensures ParseDecimal(IntToDecimal(n)) == Some(n)
  {
    var d := NatToDecimal(-n);
    assert IntToDecimal(n) == "-" + d;
    ParseNegative(d);
    NatToDecimalRoundTrip(-n);
  }

  lemma ParseNegative(d: string)
    requires 0 < |d| && AllDigits(d)
    ensures ParseDecimal("-" + d) == Some(-(DigitsValue(d) as int))
  {
    var s := "-" + d;
    assert s[1..] == d;
  }

  /** The decimal text of a three-digit number, digit by digit. */
  lemma ThreeDigits(a: nat, b: nat, c: nat)
    requires 0 < a < 10 && b < 10 && c < 10
    ensures IntToDecimal(100 * a + 10 * b + c) == [DigitChar(a), DigitChar(b), DigitChar(c)]
  {
    var n := 100 * a + 10 * b + c;
    assert n / 10 == 10 * a + b && n % 10 == c;
    assert (10 * a + b) / 10 == a && (10 * a + b) % 10 == b;
    assert NatToDecimal(a) == [DigitChar(a)];
    assert NatToDecimal(10 * a + b) == [DigitChar(a), DigitChar(b)];
  }

  /** Different integers never share their decimal text. */
  lemma DecimalInjective(m: int, n: int)
    ensures IntToDecimal(m) == IntToDecimal(n) ==> m == n
  {
    DecimalRoundTrip(m);
    DecimalRoundTrip(n);
  }

  const HexDigits: string := "0123456789abcdef"

  /** `strconv.Quote`'s treatment of one rune: quote and backslash are
      backslash-escaped, printable ASCII is kept, the seven C control escapes
      are used where they exist, and any other ASCII control byte becomes
      `\x` with two lower-case hex digits. Runes beyond ASCII are kept as they
      are. */
  function EscapeRune(c: char): (e: string)
    ensures 0 < |e|
    ensures |e| == 1 <==> e == [c]
    ensures |e| == 1 ==> c != '"' && c != '\\'
    ensures 1 < |e| ==> e[0] == '\\'
  {
    if c == '"' || c == '\\' then ['\\', c]
    else if ' ' <= c <= '~' then [c]
    else if c as int == 7 then "\\a"
    else if c as int == 8 then "\\b"
    else if c as int == 12 then "\\f"
    else if c as int == 10 then "\\n"
    else if c as int == 13 then "\\r"
    else if c as int == 9 then "\\t"
    else if c as int == 11 then "\\v"
    else if c as int < 0x20 || c as int == 0x7f then ['\\', 'x', HexDigits[c as int / 16], HexDigits[c as int % 16]]
    else [c]
  }

  function Escape(s: string): string
  {
    if |s| == 0 then [] else EscapeRune(s[0]) + Escape(s[1..])
  }

  /** Go's `%q` on a string: the escaped text between double quotes. */
  function Quote(s: string): (q: string)
    ensures 2 <= |q| && q[0] == '"' && q[|q| - 1] == '"'
  {
    ['"'] + Escape(s) + ['"']
  }

  function HexValue(c: char): (r: Option<nat>)
    ensures r.Some? ==> r.value < 16
  {
    if '0' <= c <= '9' then Some(c as int - '0' as int)
    else if 'a' <= c <= 'f' then Some(c as int - 'a' as int + 10)
    else if 'A' <= c <= 'F' then Some(c as int - 'A' as int + 10)
    else None
  }

  /** The rune a one-letter backslash escape stands for. */
  function NamedEscape(e: char): Option<char>
  {
    match e
    case 'a' => Some(7 as char)
    case 'b' => Some(8 as char)
    case 'f' => Some(12 as char)
    case 'n' => Some(10 as char)
    case 'r' => Some(13 as char)
    case 't' => Some(9 as char)
    case 'v' => Some(11 as char)
    case '\\' => Some('\\')
    case '"' => Some('"')
    case _ => None
  }

  /** Reads the body of a quoted string back; `None` on a bare double quote or
      a malformed escape. */
  function Unescape(t: string): Option<string>
    decreases |t|
  {
    if |t| == 0 then Some([])
    else if t[0] == '"' then None
    else if t[0] != '\\' then
      var rest :- Unescape(t[1..]);
      Some([t[0]] + rest)
    else if |t| < 2 then None
    else if t[1] == 'x' then
      if |t| < 4 then None
      else
        var hi :- HexValue(t[2]);
        var lo :- HexValue(t[3]);
        var rest :- Unescape(t[4..]);
        Some([(hi * 16 + lo) as char] + rest)
    else
      var c :- NamedEscape(t[1]);
      var rest :- Unescape(t[2..]);
      Some([c] + rest)
  }

  function Unquote(q: string): Option<string>
  {
    if 2 <= |q| && q[0] == '"' && q[|q| - 1] == '"' then Unescape(q[1..|q| - 1]) else None
  }

  /** Reading back one escaped rune in front of any text. */
  lemma UnescapeRune(c: char, t: string)
    ensures Unescape(EscapeRune(c) + t) == (if Unescape(t).Some? then Some([c] + Unescape(t).value) else None)
  {
    var e := EscapeRune(c);
    if |e| == 1 {
      UnescapeKept(c, t);
    } else if |e| == 2 {
      UnescapeNamed(c, t);
    } else {
      UnescapeHex(c, t);
    }
  }

  lemma UnescapeKept(c: char, t: string)
    requires EscapeRune(c) == [c]
    ensures Unescape([c] + t) == (if Unescape(t).Some? then Some([c] + Unescape(t).value) else None)
  {
    assert ([c] + t)[1..] == t;
  }

  lemma UnescapeNamed(c: char, t: string)
    requires |EscapeRune(c)| == 2
    ensures Unescape(EscapeRune(c) + t) == (if Unescape(t).Some? then Some([c] + Unescape(t).value) else None)
  {
    var e := EscapeRune(c);
    var u := e + t;
    assert u[2..] == t;
    assert u[0] == '\\' && u[1] == e[1] && e[1] != 'x';
    assert NamedEscape(e[1]) == Some(c);
  }

  lemma UnescapeHex(c: char, t: string)
    requires 2 < |EscapeRune(c)|
    ensures Unescape(EscapeRune(c) + t) == (if Unescape(t).Some? then Some([c] + Unescape(t).value) else None)
  {
    var e := EscapeRune(c);
    assert e == ['\\', 'x', HexDigits[c as int / 16], HexDigits[c as int % 16]];
    var u := e + t;
    assert u[4..] == t;
    assert u[1] == 'x';
    assert HexValue(u[2]) == Some(c as int / 16);
    assert HexValue(u[3]) == Some(c as int % 16);
  }

  lemma {:induction false} UnescapeEscape(s: string)
    ensures Unescape(Escape(s)) == Some(s)
    decreases |s|
  {
    if |s| > 0 {
      UnescapeEscape(s[1..]);
      UnescapeRune(s[0], Escape(s[1..]));
      assert [s[0]] + s[1..] == s;
    }
  }

  /** `%q` is invertible: the quoted text of a string reads back to it. */
  lemma QuoteRoundTrip(s: string)
    ensures Unquote(Quote(s)) == Some(s)
  {
    var q := Quote(s);
    assert q[1..|q| - 1] == Escape(s);
    UnescapeEscape(s);
  }

  lemma QuoteInjective(a: string, b: string)
    ensures Quote(a) == Quote(b) ==> a == b
  {
    QuoteRoundTrip(a);
    QuoteRoundTrip(b);
  }
}
