/**
 * JavaScript's global `parseInt`, on the inputs the controllers give it:
 * request parameters and form fields, as strings. `None` stands for NaN.
 */
module JsParse {
  import opened Optional

  /** The characters `parseInt` skips before the number (WhiteSpace and LineTerminator). */
  predicate IsJsWhiteSpace(c: char)
  {
    || c == '\t' || c == '\n' || c == '\U{000B}' || c == '\U{000C}' || c == '\r' || c == ' '
    || c == '\U{00A0}' || c == '\U{1680}' || ('\U{2000}' <= c <= '\U{200A}')
    || c == '\U{2028}' || c == '\U{2029}' || c == '\U{202F}' || c == '\U{205F}'
    || c == '\U{3000}' || c == '\U{FEFF}'
  }

  /** How many blanks `s` starts with: all of them are skipped, and the next character is not one. */
  function LeadingBlanks(s: string): (n: nat)
    ensures n <= |s|
    ensures forall k :: 0 <= k < n ==> IsJsWhiteSpace(s[k])
    ensures n == |s| || !IsJsWhiteSpace(s[n])
  {
    if |s| > 0 && IsJsWhiteSpace(s[0]) then 1 + LeadingBlanks(s[1..]) else 0
  }

  /** `s` without its leading blanks. */
  function TrimStart(s: string): string
  {
    s[LeadingBlanks(s)..]
  }

  /** The value of `c` as a digit in base `radix` (10 or 16), if it is one. */
  function DigitValue(c: char, radix: nat): (r: Option<nat>)
    ensures r.Some? ==> r.value < radix
  {
    if '0' <= c <= '9' && (c as int) - ('0' as int) < radix then Some((c as int) - ('0' as int))
    else if radix == 16 && 'a' <= c <= 'f' then Some((c as int) - ('a' as int) + 10)
    else if radix == 16 && 'A' <= c <= 'F' then Some((c as int) - ('A' as int) + 10)
    else None
  }

  /** Length of the longest prefix of `s` made of digits in base `radix`. */
  function DigitRun(s: string, radix: nat): (n: nat)
    ensures n <= |s|
    ensures forall k :: 0 <= k < n ==> DigitValue(s[k], radix).Some?
    ensures n == |s| || DigitValue(s[n], radix).None?
  {
    if |s| > 0 && DigitValue(s[0], radix).Some? then 1 + DigitRun(s[1..], radix) else 0
  }

  /** The number written by a string of digits, most significant first. */
  function DigitsValue(ds: string, radix: nat): nat
    requires forall k :: 0 <= k < |ds| ==> DigitValue(ds[k], radix).Some?
  {
    if |ds| == 0 then 0
    else DigitsValue(ds[..|ds| - 1], radix) * radix + DigitValue(ds[|ds| - 1], radix).value
  }

  /** What follows an optional leading `-` or `+`. */
  function Unsigned(t: string): (r: string)
    ensures r == t || (|t| > 0 && (t[0] == '-' || t[0] == '+') && r == t[1..])
  {
    if |t| > 0 && (t[0] == '-' || t[0] == '+') then t[1..] else t
  }

  /**
   * The value of the digits at the start of `u`, or None when there are
   * none. Without radix 10, a "0x"/"0X" prefix switches to base 16.
   */
  function Magnitude(u: string, radixTen: bool): Option<nat>
  {
    var hex := !radixTen && |u| >= 2 && u[0] == '0' && (u[1] == 'x' || u[1] == 'X');
    var radix := if hex then 16 else 10;
    var v := if hex then u[2..] else u;
    var n := DigitRun(v, radix);
    if n == 0 then None else Some(DigitsValue(v[..n], radix))
  }

  /**
   * `parseInt(s)` when `radixTen` is false and `parseInt(s, 10)` when it
   * is true: blanks, an optional sign, then as many digits as there are.
   * The digits are read as an exact integer, not rounded to a double.
   */
  function ParseInt(s: string, radixTen: bool): Option<int>
  {
    var t := TrimStart(s);
    match Magnitude(Unsigned(t), radixTen)
    case None => None
    case Some(m) => Some(if |t| > 0 && t[0] == '-' then -(m as int) else m as int)
  }

  /** `parseInt` of a query parameter that may be absent (`undefined` parses to NaN). */
  function ParseQuery(q: Option<string>): Option<int>
  {
    match q
    case None => None
    case Some(s) => ParseInt(s, false)
  }

  function DigitChar(d: nat): (c: char)
    requires d < 10
    ensures DigitValue(c, 10) == Some(d)
  {
    ('0' as int + d) as char
  }

  /** The base-10 digits of `n`, without leading zeros. */
  function Digits(n: nat): (s: string)
    ensures |s| > 0
    ensures forall k :: 0 <= k < |s| ==> DigitValue(s[k], 10).Some?
  {
    if n < 10 then [DigitChar(n)] else Digits(n / 10) + [DigitChar(n % 10)]
  }

  /** How a number is written in a URL or form field: optional minus sign, then its digits. */
  function DecimalString(n: int): string
  {
    if n < 0 then "-" + Digits(-n) else Digits(n)
  }

  lemma {:induction false} DigitsValueOfDigits(n: nat)
    ensures DigitsValue(Digits(n), 10) == n
  {
    if n >= 10 {
      var s := Digits(n);
      assert s[..|s| - 1] == Digits(n / 10);
      DigitsValueOfDigits(n / 10);
    }
  }

  lemma {:induction false} DigitRunOfDigits(ds: string)
    requires forall k :: 0 <= k < |ds| ==> DigitValue(ds[k], 10).Some?
    ensures DigitRun(ds, 10) == |ds|
  {
    if |ds| > 0 {
      DigitRunOfDigits(ds[1..]);
    }
  }

  /** A string of decimal digits has no "0x" prefix, so it reads as a decimal number in either mode. */
  lemma MagnitudeOfDecimal(u: string, radixTen: bool)
    requires |u| > 0 && forall k :: 0 <= k < |u| ==> DigitValue(u[k], 10).Some?
    ensures Magnitude(u, radixTen) == Some(DigitsValue(u, 10))
  {
    if |u| >= 2 {
      assert DigitValue(u[1], 10).Some?;
    }
    DigitRunOfDigits(u);
    assert u[..|u|] == u;
  }

  /** The digits of `m` are read back as `m` in either mode. */
  lemma ReadDigits(m: nat, radixTen: bool)
    ensures Magnitude(Digits(m), radixTen) == Some(m)
  {
    MagnitudeOfDecimal(Digits(m), radixTen);
    DigitsValueOfDigits(m);
  }

  /** A sign or a digit is not a blank: `parseInt` starts reading at once. */
  lemma NoBlankBeforeSign(ds: string, negative: bool)
    requires |ds| > 0 && DigitValue(ds[0], 10).Some?
    ensures var s := (if negative then "-" else "") + ds;
            TrimStart(s) == s && Unsigned(s) == ds && (|s| > 0 && s[0] == '-' <==> negative)
  {
    var s := (if negative then "-" else "") + ds;
    assert s[0] == '-' || ('0' <= s[0] <= '9');
    assert !IsJsWhiteSpace(s[0]);
    assert LeadingBlanks(s) == 0;
    assert s[0..] == s;
    if negative {
      assert s[1..] == ds;
    }
  }

  /** Reading the digits of `m` back, after an optional sign, gives `m` with that sign. */
  lemma ParseIntSignedDigits(m: nat, negative: bool, radixTen: bool)
    ensures ParseInt((if negative then "-" else "") + Digits(m), radixTen)
            == Some(if negative then -(m as int) else m as int)
  {
    var s := (if negative then "-" else "") + Digits(m);
    var t := TrimStart(s);
    assert Magnitude(Unsigned(t), radixTen) == Some(m) && (|t| > 0 && t[0] == '-' <==> negative) by {
      NoBlankBeforeSign(Digits(m), negative);
      ReadDigits(m, radixTen);
    }
    ParseIntOfMagnitude(s, radixTen, m);
  }

  lemma ParseIntOfMagnitude(s: string, radixTen: bool, m: nat)
    requires Magnitude(Unsigned(TrimStart(s)), radixTen) == Some(m)
    ensures var t := TrimStart(s);
            && ParseInt(s, radixTen).Some?
            && ParseInt(s, radixTen).value == if |t| > 0 && t[0] == '-' then -(m as int) else m as int
  {
  }

  /** Writing an integer in decimal and reading it back with `parseInt`, with or without radix 10, gives it back. */
  lemma ParseIntDecimalString(n: int)
    ensures ParseInt(DecimalString(n), true) == Some(n)
    ensures ParseInt(DecimalString(n), false) == Some(n)
  {
    var m: nat := if n < 0 then -n else n;
    ParseIntSignedDigits(m, n < 0, true);
    ParseIntSignedDigits(m, n < 0, false);
    assert DecimalString(n) == (if n < 0 then "-" else "") + Digits(m);
  }

  /** A string with no digit after the optional blanks and sign, such as "abc", parses to NaN. */
  lemma ParseIntNoDigits(s: string, radixTen: bool)
    requires var t := TrimStart(s);
             var u := if |t| > 0 && (t[0] == '-' || t[0] == '+') then t[1..] else t;
             u == [] || !('0' <= u[0] <= '9')
    ensures ParseInt(s, radixTen) == None
  {
  }
}
