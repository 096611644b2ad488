/**
 * Decimal text and delimiter-separated fields, the way both programs write
 * their long-format records: integers in decimal, a field delimiter between
 * fields, and a reader for each format so that every writer has an inverse.
 */
module Text {

  datatype Option<+T> = None | Some(value: T)

  predicate IsDigit(c: char) {
    '0' <= c <= '9'
  }

  predicate AllDigits(s: string) {
    forall k :: 0 <= k < |s| ==> IsDigit(s[k])
  }

  function DigitChar(d: int): (c: char)
    requires 0 <= d < 10
    ensures IsDigit(c)
    ensures c as int - '0' as int == d
  {
    (d + '0' as int) as char
  }

  /** Decimal digits of n, most significant first, with no leading zero. */
  function NatToString(n: nat): (s: string)
    ensures 1 <= |s|
    ensures AllDigits(s)
    decreases n
  {
    if n < 10 then [DigitChar(n)] else NatToString(n / 10) + [DigitChar(n % 10)]
  }

  /** The number a string of decimal digits denotes; None for anything else. */
  function ParseNat(s: string): (r: Option<nat>)
    ensures r.Some? <==> 1 <= |s| && AllDigits(s)
    decreases |s|
  {
    if |s| == 0 || !IsDigit(s[|s| - 1]) then None
    else if |s| == 1 then Some(s[0] as int - '0' as int)
    else
      match ParseNat(s[..|s| - 1])
      case None => None
      case Some(high) => Some(high * 10 + (s[|s| - 1] as int - '0' as int))
  }

  lemma {:induction false} ParseNatToString(n: nat)
    ensures ParseNat(NatToString(n)) == Some(n)
  {
    if n >= 10 {
      var s := NatToString(n);
      assert s[..|s| - 1] == NatToString(n / 10);
      ParseNatToString(n / 10);
    }
  }

  /** Decimal text of a signed integer: a '-' in front of a negative number. */
  function IntToString(i: int): (s: string)
    ensures 1 <= |s|
    ensures i < 0 <==> s[0] == '-'
    ensures forall k :: 0 < k < |s| ==> IsDigit(s[k])
  {
    if i < 0 then "-" + NatToString(-i) else NatToString(i)
  }

  function ParseInt(s: string): (r: Option<int>)
    ensures r.Some? && 0 <= r.value ==> ParseNat(s) == r
  {
    if 1 <= |s| && s[0] == '-' then
      match ParseNat(s[1..])
      case None => None
      case Some(m) => if m == 0 then None else Some(0 - m)
    else
      match ParseNat(s)
      case None => None
      case Some(m) => Some(m)
  }

  lemma ParseIntToString(i: int)
    ensures ParseInt(IntToString(i)) == Some(i)
  {
    if i < 0 {
      assert IntToString(i)[1..] == NatToString(-i);
      ParseNatToString(-i);
    } else {
      ParseNatToString(i);
    }
  }

  /** The fields one after another, with `sep` between consecutive fields. */
  function Join(fields: seq<string>, sep: char): (s: string)
    decreases |fields|
  {
    if |fields| == 0 then ""
    else if |fields| == 1 then fields[0]
    else fields[0] + [sep] + Join(fields[1..], sep)
  }

  /** The pieces of s between occurrences of sep (Python's `str.split(sep)`). */
  function Split(s: string, sep: char): (parts: seq<string>)
    ensures 1 <= |parts|
    decreases |s|
  {
    if |s| == 0 then [""]
    else
      var rest := Split(s[1..], sep);
      if s[0] == sep then [""] + rest else [[s[0]] + rest[0]] + rest[1..]
  }

  lemma {:induction false} SplitWithoutSep(a: string, sep: char)
    requires sep !in a
    ensures Split(a, sep) == [a]
    decreases |a|
  {
    if |a| > 0 {
      SplitWithoutSep(a[1..], sep);
      assert [a[0]] + a[1..] == a;
    }
  }

  lemma {:induction false} SplitAtFirstSep(a: string, b: string, sep: char)
    requires sep !in a
    ensures Split(a + [sep] + b, sep) == [a] + Split(b, sep)
    decreases |a|
  {
    var s := a + [sep] + b;
    if |a| == 0 {
      assert s[1..] == b;
    } else {
      assert s[0] == a[0];
      assert s[1..] == a[1..] + [sep] + b;
      SplitAtFirstSep(a[1..], b, sep);
      assert [a[0]] + a[1..] == a;
    }
  }

  /** Splitting a joined line gives the fields back when no field holds the delimiter. */
  lemma {:induction false} SplitJoin(fields: seq<string>, sep: char)
    requires 1 <= |fields|
    requires forall k :: 0 <= k < |fields| ==> sep !in fields[k]
    ensures Split(Join(fields, sep), sep) == fields
    decreases |fields|
  {
    if |fields| == 1 {
      SplitWithoutSep(fields[0], sep);
    } else {
      SplitAtFirstSep(fields[0], Join(fields[1..], sep), sep);
      SplitJoin(fields[1..], sep);
      assert [fields[0]] + fields[1..] == fields;
    }
  }

  lemma DigitsHaveNoSep(s: string, sep: char)
    requires AllDigits(s)
    requires !IsDigit(sep)
    ensures sep !in s
  {
  }

  function Signed(negative: bool, m: int): int {
    if negative then -m else m
  }

  /** Text of a whole number with a '-' in front when `negative` is set, even for zero. */
  function SignedWholeText(negative: bool, whole: nat): (s: string)
    ensures '.' !in s
  {
    DigitsHaveNoSep(NatToString(whole), '.');
    (if negative then "-" else "") + NatToString(whole)
  }

  /** "<sign><whole>.<fraction digits>", the shape of both programs' decimal values. */
  function DecimalText(negative: bool, whole: nat, fraction: string): string
    requires 1 <= |fraction| <= 2 && AllDigits(fraction)
  {
    SignedWholeText(negative, whole) + ['.'] + fraction
  }

  /** Hundredths denoted by a decimal text with one or two fraction digits. */
  function ParseDecimal(s: string): (r: Option<int>)
  {
    var parts := Split(s, '.');
    if |parts| != 2 then None else ParseDecimalParts(parts[0], parts[1])
  }

  function ParseDecimalParts(head: string, fraction: string): (r: Option<int>)
  {
    var negative := 1 <= |head| && head[0] == '-';
    var whole := ParseNat(if negative then head[1..] else head);
    var digits := ParseNat(fraction);
    if whole.None? || digits.None? || 2 < |fraction| then None
    else
      var hundredths := if |fraction| == 1 then digits.value * 10 else digits.value;
      Some(Signed(negative, whole.value * 100 + hundredths))
  }

  lemma SplitPair(a: string, b: string, sep: char)
    requires sep !in a && sep !in b
    ensures Split(a + [sep] + b, sep) == [a, b]
  {
    SplitAtFirstSep(a, b, sep);
    SplitWithoutSep(b, sep);
  }

  lemma ParseSignedWholeText(negative: bool, whole: nat)
    ensures var s := SignedWholeText(negative, whole);
      (1 <= |s| && s[0] == '-') == negative &&
      ParseNat(if negative then s[1..] else s) == Some(whole)
  {
    var s := SignedWholeText(negative, whole);
    ParseNatToString(whole);
    if negative {
      assert s[1..] == NatToString(whole);
    } else {
      assert s == NatToString(whole);
    }
  }

  lemma ParseDecimalPartsOfText(negative: bool, whole: nat, fraction: string)
    requires 1 <= |fraction| <= 2 && AllDigits(fraction)
    ensures ParseNat(fraction).Some?
    ensures ParseDecimalParts(SignedWholeText(negative, whole), fraction)
         == Some(Signed(negative, whole * 100 +
              (if |fraction| == 1 then ParseNat(fraction).value * 10 else ParseNat(fraction).value)))
  {
    ParseSignedWholeText(negative, whole);
    ParseDecimalPartsOf(SignedWholeText(negative, whole), negative, whole, fraction);
  }

  lemma ParseDecimalPartsOf(head: string, negative: bool, whole: nat, fraction: string)
    requires (1 <= |head| && head[0] == '-') == negative
    requires ParseNat(if negative then head[1..] else head) == Some(whole)
    requires 1 <= |fraction| <= 2 && AllDigits(fraction)
    ensures ParseNat(fraction).Some?
    ensures ParseDecimalParts(head, fraction)
         == Some(Signed(negative, whole * 100 +
              (if |fraction| == 1 then ParseNat(fraction).value * 10 else ParseNat(fraction).value)))
  {
  }

  /** Reading back a decimal text gives its signed count of hundredths. */
  lemma ParseDecimalText(negative: bool, whole: nat, fraction: string)
    requires 1 <= |fraction| <= 2 && AllDigits(fraction)
    ensures ParseNat(fraction).Some?
    ensures ParseDecimal(DecimalText(negative, whole, fraction))
         == Some(Signed(negative, whole * 100 +
              (if |fraction| == 1 then ParseNat(fraction).value * 10 else ParseNat(fraction).value)))
  {
    DigitsHaveNoSep(fraction, '.');
    SplitPair(SignedWholeText(negative, whole), fraction, '.');
    ParseDecimalPartsOfText(negative, whole, fraction);
  }

  /** A count of hundredths written with two fraction digits reads back as itself. */
  lemma HundredthsText(negative: bool, h: nat)
    ensures var frac := h % 100;
      ParseDecimal(DecimalText(negative, h / 100, [DigitChar(frac / 10), DigitChar(frac % 10)])) == Some(Signed(negative, h))
  {
    var frac := h % 100;
    var fraction := [DigitChar(frac / 10), DigitChar(frac % 10)];
    assert fraction[..1] == [DigitChar(frac / 10)];
    assert ParseNat(fraction) == Some(frac);
    ParseDecimalText(negative, h / 100, fraction);
  }

  /** A count of hundredths that is a whole number of tenths, written with one fraction digit, reads back as itself. */
  lemma TenthsText(negative: bool, h: nat)
    requires h % 100 % 10 == 0
    ensures ParseDecimal(DecimalText(negative, h / 100, [DigitChar(h % 100 / 10)])) == Some(Signed(negative, h))
  {
    var fraction := [DigitChar(h % 100 / 10)];
    assert ParseNat(fraction) == Some(h % 100 / 10);
    ParseDecimalText(negative, h / 100, fraction);
  }

  /** A separator that is neither a digit, '-' nor '.' does not occur in a decimal text. */
  lemma DecimalTextExcludes(negative: bool, whole: nat, fraction: string, sep: char)
    requires 1 <= |fraction| <= 2 && AllDigits(fraction)
    requires !IsDigit(sep) && sep != '-' && sep != '.'
    ensures sep !in DecimalText(negative, whole, fraction)
  {
    DigitsHaveNoSep(NatToString(whole), sep);
  }
}
