/** The string conversions the dashboard relies on: JavaScript's `String(n)`
    for integers, `parseInt` with no radix, `s.replace(/,/g, '')`, and the
    en-US `toLocaleString` grouping that writes the user counter. The
    round-trip lemmas say that reading a counter back from its displayed
    text gives the number that was written. */
module Text {
  import opened Common

  predicate IsDigit(c: char) {
    '0' <= c <= '9'
  }

  predicate AllDigits(s: string) {
    forall i :: 0 <= i < |s| ==> IsDigit(s[i])
  }

  function DigitValue(c: char): (d: nat)
    requires IsDigit(c)
    ensures d < 10
  {
    c as int - '0' as int
  }

  function DigitChar(d: nat): (c: char)
    requires d < 10
    ensures IsDigit(c) && DigitValue(c) == d
  {
    ('0' as int + d) as char
  }

  /** `String(n)` for a non-negative integer: its shortest decimal numeral. */
  function NatToDecimal(n: nat): (s: string)
    ensures |s| >= 1 && AllDigits(s)
    ensures |s| > 1 ==> s[0] != '0'
    ensures n < 10 <==> |s| == 1
    decreases n
  {
    if n < 10 then [DigitChar(n)] else NatToDecimal(n / 10) + [DigitChar(n % 10)]
  }

  /** `String(i)` (and `${i}`) for any integer. */
  function IntToDecimal(i: int): (s: string)
    ensures |s| >= 1 && (i < 0 <==> s[0] == '-')
    ensures i < 0 ==> AllDigits(s[1..]) && |s| >= 2
    ensures i >= 0 ==> AllDigits(s)
  {
    if i < 0 then "-" + NatToDecimal(-i) else NatToDecimal(i)
  }

  /** The number a string of decimal digits denotes. */
  function DecimalValue(s: string): nat
    requires AllDigits(s)
  {
    if s == [] then 0 else DecimalValue(s[..|s| - 1]) * 10 + DigitValue(s[|s| - 1])
  }

  lemma {:induction false} DecimalRoundTrip(n: nat)
    ensures DecimalValue(NatToDecimal(n)) == n
  {
    if n >= 10 {
      var s := NatToDecimal(n / 10);
      var t := s + [DigitChar(n % 10)];
      assert t[..|t| - 1] == s;
      DecimalRoundTrip(n / 10);
    }
  }

  /** The characters `parseInt` skips before the numeral (the Unicode space
      separators other than U+0020 and U+00A0 are not listed). */
  predicate IsSpace(c: char) {
    c == ' ' || c == '\t' || c == '\n' || c == '\r' ||
    c as int == 0x0B || c as int == 0x0C || c as int == 0xA0 ||
    c as int == 0xFEFF || c as int == 0x2028 || c as int == 0x2029
  }

  function TrimStart(s: string): (t: string)
    ensures |t| <= |s| && t == s[|s| - |t|..]
    ensures t == [] || !IsSpace(t[0])
    ensures s == [] || !IsSpace(s[0]) ==> t == s
  {
    if s != [] && IsSpace(s[0]) then TrimStart(s[1..]) else s
  }

  /** The longest prefix of `s` made of decimal digits. */
  function DigitPrefix(s: string): (p: string)
    ensures |p| <= |s| && p == s[..|p|] && AllDigits(p)
    ensures |p| < |s| ==> !IsDigit(s[|p|])
  {
    if s != [] && IsDigit(s[0]) then [s[0]] + DigitPrefix(s[1..]) else []
  }

  /** The value of the decimal digits at the start of `u`; None when there are none. */
  function LeadingDecimal(u: string): Option<int> {
    var digits := DigitPrefix(u);
    if digits == [] then None else Some(DecimalValue(digits))
  }

  /** `parseInt(s)` with no radix: leading white space is skipped, one sign
      is read, then the longest run of decimal digits; None stands for NaN
      (no digit at all). */
  function ParseInt(s: string): (r: Option<int>)
    ensures (forall k :: 0 <= k < |s| ==> !IsDigit(s[k])) ==> r == None
  {
    var t := TrimStart(s);
    if t != [] && t[0] == '-' then
      match LeadingDecimal(t[1..])
      case Some(v) => Some(-v)
      case None => None
    else if t != [] && t[0] == '+' then LeadingDecimal(t[1..])
    else LeadingDecimal(t)
  }

  /** `s.replace(/,/g, '')`. */
  function RemoveCommas(s: string): (t: string)
    ensures |t| <= |s|
    ensures forall i :: 0 <= i < |t| ==> t[i] != ','
  {
    if s == [] then [] else (if s[0] == ',' then [] else [s[0]]) + RemoveCommas(s[1..])
  }

  /** The three digits of one group, with leading zeros. */
  function Pad3(m: nat): (s: string)
    requires m < 1000
    ensures |s| == 3 && AllDigits(s)
  {
    [DigitChar(m / 100), DigitChar(m / 10 % 10), DigitChar(m % 10)]
  }

  /** en-US grouping: a comma between every three digits from the right. */
  function Grouped(n: nat): (g: string)
    ensures |g| >= 1 && IsDigit(g[0])
    decreases n
  {
    if n < 1000 then NatToDecimal(n) else Grouped(n / 1000) + "," + Pad3(n % 1000)
  }

  /** `i.toLocaleString()` for an integer in the en-US locale. */
  function LocaleString(i: int): (s: string)
    ensures |s| >= 1 && (i < 0 <==> s[0] == '-')
    ensures i >= 0 ==> IsDigit(s[0])
    ensures i < 0 ==> |s| >= 2 && IsDigit(s[1])
  {
    if i < 0 then "-" + Grouped(-i) else Grouped(i)
  }

  lemma {:induction false} RemoveCommasAppend(a: string, b: string)
    ensures RemoveCommas(a + b) == RemoveCommas(a) + RemoveCommas(b)
  {
    if a == [] {
      assert a + b == b;
    } else {
      assert (a + b)[0] == a[0];
      assert (a + b)[1..] == a[1..] + b;
      RemoveCommasAppend(a[1..], b);
    }
  }

  lemma {:induction false} RemoveCommasOfDigits(s: string)
    requires AllDigits(s)
    ensures RemoveCommas(s) == s
  {
    if s != [] {
      RemoveCommasOfDigits(s[1..]);
    }
  }

  lemma {:induction false} DigitPrefixOfDigits(s: string)
    requires AllDigits(s)
    ensures DigitPrefix(s) == s
  {
    if s != [] {
      DigitPrefixOfDigits(s[1..]);
      assert [s[0]] + s[1..] == s;
    }
  }

  /** A non-empty run of digits is read in full. */
  lemma LeadingOfDigits(s: string)
    requires AllDigits(s) && s != []
    ensures LeadingDecimal(s) == Some(DecimalValue(s))
  {
    DigitPrefixOfDigits(s);
  }

  /** Splitting off the last three digits of a numeral of four or more digits. */
  lemma DecimalSplit(n: nat)
    requires n >= 1000
    ensures NatToDecimal(n) == NatToDecimal(n / 1000) + Pad3(n % 1000)
  {
    var q, m := n / 1000, n % 1000;
    assert n == 1000 * q + m;
    assert n / 10 == 100 * q + m / 10;
    assert n / 10 / 10 == 10 * q + m / 100;
    assert n / 10 / 10 / 10 == q;
    assert n % 10 == m % 10;
    assert n / 10 % 10 == m / 10 % 10;
    assert n / 10 / 10 % 10 == m / 100;
    calc {
      NatToDecimal(n);
      NatToDecimal(n / 10) + [DigitChar(n % 10)];
      NatToDecimal(n / 10 / 10) + [DigitChar(n / 10 % 10)] + [DigitChar(n % 10)];
      NatToDecimal(q) + [DigitChar(n / 10 / 10 % 10)] + [DigitChar(n / 10 % 10)] + [DigitChar(n % 10)];
      NatToDecimal(q) + Pad3(m);
    }
  }

  /** Removing the commas of a grouped numeral gives back the plain numeral. */
  lemma {:induction false} UngroupedIsDecimal(n: nat)
    ensures RemoveCommas(Grouped(n)) == NatToDecimal(n)
  {
    if n < 1000 {
      RemoveCommasOfDigits(NatToDecimal(n));
    } else {
      var head := Grouped(n / 1000);
      RemoveCommasAppend(head + ",", Pad3(n % 1000));
      RemoveCommasAppend(head, ",");
      UngroupedIsDecimal(n / 1000);
      RemoveCommasOfDigits(Pad3(n % 1000));
      DecimalSplit(n);
    }
  }

  /** A string starting with a digit is read from its first character. */
  lemma ParseUnsigned(t: string)
    requires t != [] && IsDigit(t[0])
    ensures ParseInt(t) == LeadingDecimal(t)
  {
    assert !IsSpace(t[0]);
    assert TrimStart(t) == t;
  }

  /** A string starting with a minus sign is read as the negated digits after it. */
  lemma ParseMinus(t: string)
    requires t != [] && t[0] == '-'
    ensures ParseInt(t) == match LeadingDecimal(t[1..]) case Some(v) => Some(-v) case None => None
  {
    assert !IsSpace(t[0]);
    assert TrimStart(t) == t;
  }

  /** `parseInt(String(n))` is `n`. */
  lemma ParseNumeral(n: nat)
    ensures ParseInt(NatToDecimal(n)) == Some(n)
  {
    var s := NatToDecimal(n);
    ParseUnsigned(s);
    LeadingOfDigits(s);
    DecimalRoundTrip(n);
  }

  /** A minus sign in front of digits read as `n` is read as `-n`. */
  lemma NegDigits(s: string, n: nat)
    requires LeadingDecimal(s) == Some(n)
    ensures ParseInt("-" + s) == Some(-(n as int))
  {
    var t := "-" + s;
    assert t[1..] == s;
    ParseMinus(t);
  }

  /** `parseInt("-" + String(n))` is `-n`. */
  lemma ParseNegativeNumeral(n: nat)
    ensures ParseInt("-" + NatToDecimal(n)) == Some(-(n as int))
  {
    DecimalRoundTrip(n);
    LeadingOfDigits(NatToDecimal(n));
    NegDigits(NatToDecimal(n), n);
  }

  /** Reading a counter back from its en-US text, as the `user_joined`
      handler does (commas removed, then `parseInt`), yields the number
      that was written. */
  lemma LocaleRoundTrip(i: int)
    ensures ParseInt(RemoveCommas(LocaleString(i))) == Some(i)
  {
    if i < 0 {
      NegativeLocaleRoundTrip(i);
    } else {
      PositiveLocaleRoundTrip(i);
    }
  }

  /** The non-negative half of the round trip. */
  lemma PositiveLocaleRoundTrip(n: nat)
    ensures ParseInt(RemoveCommas(LocaleString(n))) == Some(n)
  {
    assert LocaleString(n) == Grouped(n);
    UngroupedIsDecimal(n);
    ParseNumeral(n);
  }

  /** The negative half of the round trip: a minus sign, then `-i` with grouping. */
  lemma NegativeLocaleRoundTrip(i: int)
    requires i < 0
    ensures ParseInt(RemoveCommas(LocaleString(i))) == Some(i)
  {
    var n: nat := -i;
    assert LocaleString(i) == "-" + Grouped(n);
    UngroupedIsDecimal(n);
    RemoveCommasAppend("-", Grouped(n));
    assert RemoveCommas("-") == "-";
    ParseNegativeNumeral(n);
  }
}
