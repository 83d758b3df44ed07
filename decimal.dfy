/** Decimal text of integers: Python's str() on an int, and int() on a string
    narrowed to surrounding white space, an optional sign and ASCII digits. */
module Decimal {
  import opened Wrappers
  import opened Strings

  function DigitChar(d: nat): (c: char)
    requires d < 10
    ensures IsDigit(c)
  {
    ('0' as int + d) as char
  }

  function DigitValue(c: char): (d: nat)
    requires IsDigit(c)
    ensures d < 10
  {
    c as int - '0' as int
  }

  /** The value of a run of decimal digits, most significant first. */
  function DigitsValue(s: string): nat
    requires AllDigits(s)
  {
    if s == [] then 0 else DigitsValue(s[..|s| - 1]) * 10 + DigitValue(s[|s| - 1])
  }

  /** str(n) for a non-negative int. */
  function NatToString(n: nat): (r: string)
    ensures |r| >= 1 && AllDigits(r)
  {
    if n < 10 then [DigitChar(n)] else NatToString(n / 10) + [DigitChar(n % 10)]
  }

  /** str(i) for any int. */
  function IntToString(i: int): (r: string)
    ensures |r| >= 1
  {
    if i < 0 then "-" + NatToString(-i) else NatToString(i)
  }

  /** int(s), narrowed: strip, an optional '+' or '-', then one or more ASCII digits;
      None where Python raises ValueError. */
  function ParseInt(s: string): (r: Option<int>)
    ensures var t := Strip(s);
            var body := if t != [] && (t[0] == '-' || t[0] == '+') then t[1..] else t;
            && (r.Some? <==> body != [] && AllDigits(body))
            && (r.Some? ==> r.value == if t[0] == '-' then -(DigitsValue(body) as int) else DigitsValue(body) as int)
  {
    ParseSigned(Strip(s))
  }

  /** The sign and digits int() accepts once the white space is gone. */
  function ParseSigned(t: string): (r: Option<int>)
    ensures r.Some? ==> exists k :: 0 <= k < |t| && AllDigits(t[k..])
  {
    if t == [] then None
    else
      var body := if t[0] == '-' || t[0] == '+' then t[1..] else t;
      if body == [] || !AllDigits(body) then None
      else
        assert body == t[|t| - |body|..];
        var v: int := DigitsValue(body);
        Some(if t[0] == '-' then -v else v)
  }

  /** Reading back the digits str() produced gives the number. */
  lemma {:induction false} NatToStringValue(n: nat)
    ensures DigitsValue(NatToString(n)) == n
  {
    if n >= 10 {
      var a := NatToString(n / 10);
      var s := a + [DigitChar(n % 10)];
      assert s[..|s| - 1] == a;
      NatToStringValue(n / 10);
    }
  }

  /** int() of a text without surrounding white space reads the text as it is. */
  lemma ParseStripped(t: string)
    requires Stripped(t)
    ensures ParseInt(t) == ParseSigned(t)
  {
    StripOfStripped(t);
  }

  /** int() of a run of digits is its value. */
  lemma ParseDigits(d: string, n: nat)
    requires |d| >= 1 && AllDigits(d) && DigitsValue(d) == n
    ensures ParseInt(d) == Some(n)
  {
    assert IsDigit(d[0]) && IsDigit(d[|d| - 1]);
    ParseStripped(d);
  }

  /** int() of a minus sign and a run of digits is the negated value. */
  lemma ParseNegated(d: string, n: nat)
    requires |d| >= 1 && AllDigits(d) && DigitsValue(d) == n
    ensures ParseInt("-" + d) == Some(-(n as int))
  {
    var s := "-" + d;
    assert s[1..] == d;
    assert Stripped(s) by {
      assert s[0] == '-' && s[|s| - 1] == d[|d| - 1] && IsDigit(d[|d| - 1]);
    }
    ParseStripped(s);
    SignedNegative(s);
  }

  /** The minus branch of int() on text without surrounding white space. */
  lemma SignedNegative(t: string)
    requires |t| >= 2 && t[0] == '-' && AllDigits(t[1..])
    ensures ParseSigned(t) == Some(-(DigitsValue(t[1..]) as int))
  {
  }

  /** int(str(i)) == i. */
  lemma IntRoundTrip(i: int)
    ensures ParseInt(IntToString(i)) == Some(i)
  {
    if i < 0 {
      NatToStringValue(-i);
      ParseNegated(NatToString(-i), -i);
    } else {
      NatToStringValue(i);
      ParseDigits(NatToString(i), i);
    }
  }

  /** The parse of a non-negative id written by str() is that id. */
  lemma NatRoundTrip(n: nat)
    ensures ParseInt(NatToString(n)) == Some(n)
  {
    IntRoundTrip(n);
  }
}
