/**
 * The handful of JavaScript string and number built-ins that the server and the
 * browser client rely on, modelled on Dafny strings (`seq<char>`).
 *
 * - `Option` stands for a value that may be absent (`undefined`, or `NaN` for numbers).
 * - `BeforeFirst(s, c)` is `s.split(c)[0]`.
 * - `NumberOf` is `Number(text)` on octet text, `ParseInt` is `parseInt(text)`.
 * - `IntToDecimal` is the template-literal rendering `${n}` of an integer.
 */
module JsText {

  datatype Option<+T> = None | Some(value: T) {
    function GetOr(default: T): T {
      if Some? then value else default
    }
  }

  /** JavaScript truthiness of an optional string: absent and "" are both falsy. */
  predicate Truthy(s: Option<string>) {
    s.Some? && s.value != ""
  }

  /** `s || fallback` for an optional string. */
  function OrElse(s: Option<string>, fallback: string): string {
    if Truthy(s) then s.value else fallback
  }

  /** `s.split(sep)[0]`: the text before the first `sep`, or all of `s` when there is none. */
  function BeforeFirst(s: string, sep: char): (r: string)
    ensures r <= s
    ensures sep !in r
    ensures |r| < |s| ==> s[|r|] == sep
  {
    if s == [] || s[0] == sep then [] else [s[0]] + BeforeFirst(s[1..], sep)
  }

  /** `s.split(sep)[1]`: the text between the first and the second `sep`; absent when `sep` does not occur. */
  function SecondPiece(s: string, sep: char): (r: Option<string>)
    ensures r.Some? <==> sep in s
    ensures r.Some? ==> sep !in r.value
    ensures r.Some? ==> var h := BeforeFirst(s, sep);
                        s[..|h| + 1] == h + [sep] && r.value <= s[|h| + 1..]
                        && (|h| + 1 + |r.value| < |s| ==> s[|h| + 1 + |r.value|] == sep)
  {
    var head := BeforeFirst(s, sep);
    if |head| < |s| then Some(BeforeFirst(s[|head| + 1..], sep)) else None
  }

  /** Text without `sep` is not split. */
  lemma {:induction false} BeforeFirstAbsent(s: string, sep: char)
    requires sep !in s
    ensures BeforeFirst(s, sep) == s
  {
    if s != [] {
      BeforeFirstAbsent(s[1..], sep);
    }
  }

  /** A piece of text made of two parts joined by `sep`, the first free of `sep`, splits back into that first part. */
  lemma {:induction false} BeforeFirstOfJoin(a: string, sep: char, b: string)
    requires sep !in a
    ensures BeforeFirst(a + [sep] + b, sep) == a
  {
    if a != [] {
      assert (a + [sep] + b)[1..] == a[1..] + [sep] + b;
      BeforeFirstOfJoin(a[1..], sep, b);
    }
  }

  /** The second piece of `a + sep + b + rest` is `b` when neither `a` nor `b` holds `sep` and
      `rest` is empty or starts a third piece. */
  lemma SecondPieceOfJoin(a: string, sep: char, b: string, rest: string)
    requires sep !in a && sep !in b
    requires rest == [] || rest[0] == sep
    ensures SecondPiece(a + [sep] + b + rest, sep) == Some(b)
  {
    var s := a + [sep] + b + rest;
    assert s == a + [sep] + (b + rest);
    BeforeFirstOfJoin(a, sep, b + rest);
    assert s[|a| + 1..] == b + rest;
    if rest == [] {
      assert b + rest == b;
      BeforeFirstAbsent(b, sep);
    } else {
      assert b + rest == b + [sep] + rest[1..];
      BeforeFirstOfJoin(b, sep, rest[1..]);
    }
  }

  predicate IsDigit(c: char) {
    '0' <= c <= '9'
  }

  predicate AllDigits(s: string) {
    forall i :: 0 <= i < |s| ==> IsDigit(s[i])
  }

  function DigitChar(d: nat): (c: char)
    requires d < 10
    ensures IsDigit(c)
  {
    ('0' as int + d) as char
  }

  /** The value of a run of decimal digits, most significant first ("" is 0). */
  function DigitsValue(s: string): nat
    requires AllDigits(s)
    decreases |s|
  {
    if s == [] then 0 else DigitsValue(s[..|s| - 1]) * 10 + (s[|s| - 1] as int - '0' as int)
  }

  /** Decimal rendering of a natural number, without leading zeros. */
  function NatToDecimal(n: nat): (s: string)
    ensures |s| >= 1 && AllDigits(s)
    ensures |s| > 1 ==> s[0] != '0'
  {
    if n < 10 then [DigitChar(n)] else NatToDecimal(n / 10) + [DigitChar(n % 10)]
  }

  /** `${i}` for an integer `i`. */
  function IntToDecimal(i: int): string {
    if i < 0 then "-" + NatToDecimal(-i) else NatToDecimal(i)
  }

  lemma {:induction false} DecimalRoundTrip(n: nat)
    ensures DigitsValue(NatToDecimal(n)) == n
  {
    if n >= 10 {
      var s := NatToDecimal(n);
      DecimalRoundTrip(n / 10);
      assert s[..|s| - 1] == NatToDecimal(n / 10);
    }
  }

  /** `Number(text)` for the text of one octet: `None` stands for NaN.
      Decimal digit strings are read as numbers and "" is 0, as in JavaScript. */
  function NumberOf(s: string): Option<int> {
    if AllDigits(s) then Some(DigitsValue(s)) else None
  }

  /** `Number` of a number's decimal text is that number. */
  lemma NumberOfDecimal(n: nat)
    ensures NumberOf(NatToDecimal(n)) == Some(n)
  {
    DecimalRoundTrip(n);
  }

  /** The longest prefix of `s` made of decimal digits. */
  function LeadingDigits(s: string): (d: string)
    ensures d <= s && AllDigits(d)
    ensures |d| < |s| ==> !IsDigit(s[|d|])
  {
    if s != [] && IsDigit(s[0]) then [s[0]] + LeadingDigits(s[1..]) else []
  }

  /** `parseInt(text)`: an optional sign followed by the leading decimal digits; `None` stands for NaN. */
  function ParseInt(s: string): (r: Option<int>)
    ensures r.None? <==> LeadingDigits(if s != [] && (s[0] == '-' || s[0] == '+') then s[1..] else s) == []
  {
    var signed := s != [] && (s[0] == '-' || s[0] == '+');
    var digits := LeadingDigits(if signed then s[1..] else s);
    var magnitude: int := if digits == [] then 0 else DigitsValue(digits);
    if digits == [] then None
    else if s[0] == '-' then Some(-magnitude)
    else Some(magnitude)
  }

  lemma {:induction false} LeadingDigitsOfJoin(d: string, rest: string)
    requires AllDigits(d)
    requires rest == [] || !IsDigit(rest[0])
    ensures LeadingDigits(d + rest) == d
  {
    if d != [] {
      assert (d + rest)[1..] == d[1..] + rest;
      LeadingDigitsOfJoin(d[1..], rest);
    }
  }

  /** `parseInt` of an optional sign, a run of digits and text that does not start with a
      digit: the signed value of the digits, whatever their leading zeros. */
  lemma ParseIntOfDigits(sign: string, d: string, rest: string)
    requires |sign| <= 1 && (sign != [] ==> sign[0] == '-' || sign[0] == '+')
    requires d != [] && AllDigits(d)
    requires rest == [] || !IsDigit(rest[0])
    ensures ParseInt(sign + d + rest)
            == Some(if sign != [] && sign[0] == '-' then -(DigitsValue(d) as int) else DigitsValue(d) as int)
  {
    var t := d + rest;
    LeadingDigitsOfJoin(d, rest);
    assert t[0] == d[0];
    if sign == [] {
      assert sign + d == d;
      ParseIntUnsigned(t, d);
    } else {
      assert sign == [sign[0]];
      assert sign + d + rest == sign + t;
      ParseIntSigned(sign[0], t, d);
    }
  }

  lemma ParseIntUnsigned(t: string, d: string)
    requires d != [] && AllDigits(d) && LeadingDigits(t) == d && IsDigit(t[0])
    ensures ParseInt(t) == Some(DigitsValue(d) as int)
  {
  }

  lemma ParseIntSigned(c: char, t: string, d: string)
    requires c == '-' || c == '+'
    requires d != [] && AllDigits(d) && LeadingDigits(t) == d
    ensures ParseInt([c] + t) == Some(if c == '-' then -(DigitsValue(d) as int) else DigitsValue(d) as int)
  {
    assert ([c] + t)[1..] == t;
  }

  /** What `${i}` renders, followed by text that does not start with a digit, parses back to `i`. */
  lemma {:induction false} ParseIntOfDecimal(i: int, rest: string)
    requires rest == [] || !IsDigit(rest[0])
    ensures ParseInt(IntToDecimal(i) + rest) == Some(i)
  {
    var n: nat := if i < 0 then -i else i;
    var d := NatToDecimal(n);
    DecimalRoundTrip(n);
    var s := IntToDecimal(i) + rest;
    if i < 0 {
      assert s == ['-'] + d + rest;
      ParseIntOfDigits(['-'], d, rest);
    } else {
      assert s == [] + d + rest;
      ParseIntOfDigits([], d, rest);
    }
  }
}
