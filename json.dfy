/** The compact JSON text that `serde_json::to_string` writes for strings and
    integers (no whitespace between tokens). */
module Json {
  import opened Common

  const HexDigits: string := "0123456789abcdef"

  /** The characters serde_json writes for one character of a string value:
      the quote, the backslash and the control characters below U+0020 are
      escaped, the control characters without a short form as `\u00XX` in
      lower-case hexadecimal; every other character is written as it is. */
  function EscapeChar(c: char): (r: string)
    ensures |r| >= 1
    ensures r == [c] <==> !NeedsEscape(c)
    ensures |r| == 1 <==> !NeedsEscape(c)
  {
    if c == '"' then "\\\""
    else if c == '\\' then "\\\\"
    else if c as int == 0x08 then "\\b"
    else if c == '\t' then "\\t"
    else if c == '\n' then "\\n"
    else if c as int == 0x0C then "\\f"
    else if c == '\r' then "\\r"
    else if (c as int) < 0x20 then "\\u00" + [HexDigits[c as int / 16], HexDigits[c as int % 16]]
    else [c]
  }

  predicate NeedsEscape(c: char)
  {
    c == '"' || c == '\\' || (c as int) < 0x20
  }

  function Escape(s: string): (r: string)
    ensures |r| >= |s|
    ensures |r| == |s| <==> forall i :: 0 <= i < |s| ==> !NeedsEscape(s[i])
  {
    if s == [] then "" else EscapeChar(s[0]) + Escape(s[1..])
  }

  /** A JSON string literal. */
  function Str(s: string): (r: string)
    ensures |r| >= |s| + 2 && r[0] == '"' && r[|r| - 1] == '"'
    ensures |r| == |s| + 2 <==> forall i :: 0 <= i < |s| ==> !NeedsEscape(s[i])
  {
    "\"" + Escape(s) + "\""
  }

  /** Text with nothing to escape is written unchanged between the quotes. */
  lemma {:induction false} EscapePlain(s: string)
    requires forall i :: 0 <= i < |s| ==> !NeedsEscape(s[i])
    ensures Escape(s) == s
  {
    if s != [] {
      EscapePlain(s[1..]);
      assert s == [s[0]] + s[1..];
    }
  }

  /** The decimal digits of a natural number, most significant first. */
  function Digits(n: nat): (r: string)
    ensures |r| >= 1
    ensures forall i :: 0 <= i < |r| ==> '0' <= r[i] <= '9'
    decreases n
  {
    if n < 10 then [('0' as int + n) as char]
    else Digits(n / 10) + [('0' as int + n % 10) as char]
  }

  /** The number a string of decimal digits denotes, most significant
      first. */
  function DecimalValue(s: string): int
  {
    if s == [] then 0 else 10 * DecimalValue(s[..|s| - 1]) + (s[|s| - 1] as int - '0' as int)
  }

  /** The digits written for `n` denote `n`. */
  lemma {:induction false} DigitsValue(n: nat)
    ensures DecimalValue(Digits(n)) == n
    decreases n
  {
    if n >= 10 {
      DigitsValue(n / 10);
      var d := Digits(n);
      assert d[..|d| - 1] == Digits(n / 10);
    }
  }

  /** Different numbers are written differently. */
  lemma DigitsInjective(m: nat, n: nat)
    requires Digits(m) == Digits(n)
    ensures m == n
  {
    DigitsValue(m);
    DigitsValue(n);
  }

  /** A JSON number holding an integer, written the way Rust's `itoa` writes
      an `i64`. */
  function Int(n: I64): (r: string)
    ensures |r| >= 1 && (r[0] == '-' <==> n < 0)
  {
    if n < 0 then "-" + Digits(-(n as int)) else Digits(n as int)
  }

  /** The number a JSON integer denotes: an optional minus sign, then
      decimal digits. */
  function SignedValue(s: string): int
  {
    if s != [] && s[0] == '-' then -DecimalValue(s[1..]) else DecimalValue(s)
  }

  /** The text written for an integer denotes that integer. */
  lemma IntValue(n: I64)
    ensures SignedValue(Int(n)) == n as int
  {
    if n < 0 {
      DigitsValue(-(n as int));
      assert Int(n)[1..] == Digits(-(n as int));
    } else {
      DigitsValue(n as int);
    }
  }
}
