/** The three pieces of Python's text handling the PID file relies on:
    `str(n)` for an integer, `str.strip()` and base-10 `int(text)`. */
module PyText {
  import opened Base

  /** The characters for which Python's `str.isspace()` holds. */
  predicate IsSpace(c: char) {
    var n := c as int;
    || n == 0x20
    || 0x09 <= n <= 0x0D
    || 0x1C <= n <= 0x1F
    || n == 0x85 || n == 0xA0 || n == 0x1680
    || 0x2000 <= n <= 0x200A
    || n == 0x2028 || n == 0x2029 || n == 0x202F || n == 0x205F || n == 0x3000
  }

  predicate IsDigit(c: char) {
    '0' <= c <= '9'
  }

  function DigitValue(c: char): nat
    requires IsDigit(c)
  {
    (c as int) - ('0' as int)
  }

  function DigitChar(d: nat): (c: char)
    requires d < 10
    ensures IsDigit(c) && DigitValue(c) == d
  {
    (('0' as int) + d) as char
  }

  /** `s.lstrip()`: drops leading whitespace. */
  function StripLeading(s: string): (r: string)
    ensures |r| <= |s| && r == s[|s| - |r|..]
    ensures forall i :: 0 <= i < |s| - |r| ==> IsSpace(s[i])
    ensures |r| > 0 ==> !IsSpace(r[0])
    decreases |s|
  {
    if |s| > 0 && IsSpace(s[0]) then
      var r := StripLeading(s[1..]);
      assert forall i :: 1 <= i < |s| - |r| ==> s[i] == s[1..][i - 1];
      r
    else
      s
  }

  /** `s.rstrip()`: drops trailing whitespace. */
  function StripTrailing(s: string): (r: string)
    ensures |r| <= |s| && r == s[..|r|]
    ensures forall i :: |r| <= i < |s| ==> IsSpace(s[i])
    ensures |r| > 0 ==> !IsSpace(r[|r| - 1])
    decreases |s|
  {
    if |s| > 0 && IsSpace(s[|s| - 1]) then
      StripTrailing(s[..|s| - 1])
    else
      s
  }

  /** `s.strip()`: drops whitespace at both ends. The result is a slice of
      the input with only whitespace around it, and a result that is not
      empty starts and ends with a non-space character, so it is the input
      without its leading and trailing whitespace runs. Text that is already
      stripped comes back unchanged; all-whitespace text becomes empty. */
  function Strip(s: string): (r: string)
    ensures |r| <= |s|
    ensures exists i :: Trimmed(s, r, i)
    ensures |r| > 0 ==> !IsSpace(r[0]) && !IsSpace(r[|r| - 1])
    ensures |s| > 0 && !IsSpace(s[0]) && !IsSpace(s[|s| - 1]) ==> r == s
    ensures (forall i :: 0 <= i < |s| ==> IsSpace(s[i])) ==> r == []
  {
    var m := StripLeading(s);
    TrimmedBetween(s, m, StripTrailing(m));
    StripTrailing(m)
  }

  /** `r` is the slice of `s` starting at `i`, with only whitespace before
      and after it. */
  predicate Trimmed(s: string, r: string, i: int) {
    && 0 <= i <= |s| - |r| && r == s[i..i + |r|]
    && (forall k :: 0 <= k < i ==> IsSpace(s[k]))
    && (forall k :: i + |r| <= k < |s| ==> IsSpace(s[k]))
  }

  /** A prefix `r` of a suffix `m` of `s`, with only whitespace before `m`
      in `s` and after `r` in `m`, is `s` trimmed at `|s| - |m|`. */
  lemma TrimmedBetween(s: string, m: string, r: string)
    requires |m| <= |s| && m == s[|s| - |m|..]
    requires forall k :: 0 <= k < |s| - |m| ==> IsSpace(s[k])
    requires |r| <= |m| && r == m[..|r|]
    requires forall k :: |r| <= k < |m| ==> IsSpace(m[k])
    ensures Trimmed(s, r, |s| - |m|)
  {
    var i := |s| - |m|;
    assert r == s[i..i + |r|];
    forall k | i + |r| <= k < |s|
      ensures IsSpace(s[k])
    {
      assert s[k] == m[k - i];
    }
  }

  /** `str(n)` for a non-negative integer: its decimal digits, most
      significant first, with no leading zero. */
  function Decimal(n: nat): (r: string)
    ensures |r| > 0
    ensures forall i :: 0 <= i < |r| ==> IsDigit(r[i])
    ensures r[0] == '0' ==> n == 0
    ensures |r| > 1 ==> r[0] != '0'
    decreases n
  {
    if n < 10 then [DigitChar(n)] else Decimal(n / 10) + [DigitChar(n % 10)]
  }

  /** `str(i)` for any integer: a `-` exactly for a negative integer, then
      decimal digits with no leading zero unless the integer is 0. */
  function IntText(i: int): (r: string)
    ensures |r| > 0
    ensures r[0] == '-' <==> i < 0
    ensures forall k :: (if i < 0 then 1 else 0) <= k < |r| ==> IsDigit(r[k])
    ensures i < 0 ==> |r| > 1 && r[1] != '0'
    ensures i >= 0 && |r| > 1 ==> r[0] != '0'
  {
    if i < 0 then "-" + Decimal(-i) else Decimal(i)
  }

  /** Position `i` of `s` is a digit, or an underscore standing between two
      digits (Python allows `1_000`). */
  predicate GroupedAt(s: string, i: int)
    requires 0 <= i < |s|
  {
    || IsDigit(s[i])
    || (s[i] == '_' && 0 < i < |s| - 1 && IsDigit(s[i - 1]) && IsDigit(s[i + 1]))
  }

  /** The unsigned digit part `int()` accepts in base 10. */
  predicate DigitLiteral(s: string) {
    |s| > 0 && forall i :: 0 <= i < |s| ==> GroupedAt(s, i)
  }

  /** The number a digit literal denotes; underscores are skipped. */
  function LiteralValue(s: string): nat
  {
    if s == [] then 0
    else if IsDigit(s[|s| - 1]) then 10 * LiteralValue(s[..|s| - 1]) + DigitValue(s[|s| - 1])
    else LiteralValue(s[..|s| - 1])
  }

  /** What `int()` accepts once the text is stripped: one optional sign,
      then a digit literal. */
  predicate SignedLiteral(t: string) {
    || DigitLiteral(t)
    || (|t| > 0 && (t[0] == '+' || t[0] == '-') && DigitLiteral(t[1..]))
  }

  /** `r` is what `int()` makes of the stripped text `t`: a value exactly
      for a signed literal, namely the literal's value with its sign
      applied, and no negative value without a leading `-`. */
  predicate ParsesAs(t: string, r: Option<int>) {
    && (r.Some? <==> SignedLiteral(t))
    && (r.Some? && r.value < 0 ==> t[0] == '-')
    && (DigitLiteral(t) ==> r == Some(LiteralValue(t)))
    && (|t| > 0 && t[0] == '+' && DigitLiteral(t[1..]) ==> r == Some(LiteralValue(t[1..])))
    && (|t| > 0 && t[0] == '-' && DigitLiteral(t[1..]) ==> r == Some(0 - LiteralValue(t[1..])))
  }

  /** `int(text)` in base 10: surrounding whitespace is ignored, one optional
      sign, then a digit literal. Anything else is a `ValueError` (`None`). */
  function ParseInt(text: string): (r: Option<int>)
    ensures ParsesAs(Strip(text), r)
    ensures Strip(text) == [] ==> r.None?
  {
    ParseSigned(Strip(text))
  }

  /** `int()` on text without surrounding whitespace. */
  function ParseSigned(t: string): (r: Option<int>)
    ensures ParsesAs(t, r)
    ensures t == [] ==> r.None?
  {
    if |t| > 0 && (t[0] == '+' || t[0] == '-') then
      assert !GroupedAt(t, 0);
      var body := t[1..];
      if DigitLiteral(body) then
        var v: int := LiteralValue(body);
        Some(if t[0] == '-' then 0 - v else v)
      else
        None
    else if DigitLiteral(t) then
      Some(LiteralValue(t))
    else
      None
  }

  /** Reading back the digits `str(n)` wrote yields `n`. */
  lemma {:induction false} DecimalValue(n: nat)
    ensures LiteralValue(Decimal(n)) == n
    decreases n
  {
    var s := Decimal(n);
    if n >= 10 {
      DecimalValue(n / 10);
      assert s[..|s| - 1] == Decimal(n / 10);
    } else {
      assert s[..|s| - 1] == [];
    }
  }

  /** The decimal text of a number is a digit literal without whitespace. */
  lemma DecimalIsLiteral(n: nat)
    ensures DigitLiteral(Decimal(n))
    ensures Strip(Decimal(n)) == Decimal(n)
  {
    DigitsAreLiteral(Decimal(n));
  }

  /** Any non-empty run of digits is a digit literal that `strip()` leaves
      alone. */
  lemma DigitsAreLiteral(s: string)
    requires |s| > 0 && forall i :: 0 <= i < |s| ==> IsDigit(s[i])
    ensures DigitLiteral(s) && Strip(s) == s
  {
    assert IsDigit(s[0]) && IsDigit(s[|s| - 1]);
    assert !IsSpace(s[0]) && !IsSpace(s[|s| - 1]);
    forall i | 0 <= i < |s|
      ensures GroupedAt(s, i)
    {
      assert IsDigit(s[i]);
    }
  }

  /** The PID file round trip: `int(str(n).strip()) == n` for every
      non-negative `n`. */
  lemma PidTextRoundTrip(n: nat)
    ensures ParseInt(Strip(Decimal(n))) == Some(n)
  {
    DecimalIsLiteral(n);
    DecimalValue(n);
  }

  /** A minus sign followed by a digit literal of value `n` parses as `-n`. */
  lemma NegativeLiteral(d: string, n: nat)
    requires DigitLiteral(d) && LiteralValue(d) == n
    ensures ParseInt("-" + d) == Some(0 - n)
  {
    var t := "-" + d;
    assert t[1..] == d;
    assert ParseSigned(t) == Some(0 - n);
    assert GroupedAt(d, |d| - 1);
    assert t[|t| - 1] == d[|d| - 1];
    assert !IsSpace(t[0]) && !IsSpace(t[|t| - 1]);
    assert Strip(t) == t;
  }

  /** `int(str(i)) == i` for every integer, negative ones included. */
  lemma IntTextRoundTrip(i: int)
    ensures ParseInt(IntText(i)) == Some(i)
  {
    if i < 0 {
      NegativeTextRoundTrip(-i);
      assert IntText(i) == "-" + Decimal(-i);
    } else {
      PositiveTextRoundTrip(i);
      assert IntText(i) == Decimal(i);
    }
  }

  /** `int()` of `str(n)` is `n` for a non-negative `n`. */
  lemma PositiveTextRoundTrip(n: nat)
    ensures ParseInt(Decimal(n)) == Some(n)
  {
    PidTextRoundTrip(n);
    DecimalIsLiteral(n);
  }

  /** `int()` of a minus sign followed by `str(n)` is `-n`. */
  lemma NegativeTextRoundTrip(n: nat)
    ensures ParseInt("-" + Decimal(n)) == Some(0 - n)
  {
    DecimalIsLiteral(n);
    DecimalValue(n);
    NegativeLiteral(Decimal(n), n);
  }
}
