/** JavaScript's `parseInt(text, 10)`, restricted to text that begins (after an optional sign)
    with a decimal digit, which is the case where the result is a number and not `NaN`. */
module JsParseInt {

  predicate IsDigit(c: char) {
    '0' <= c <= '9'
  }

  function DigitValue(c: char): (d: nat)
    requires IsDigit(c)
    ensures d < 10
  {
    (c as int) - ('0' as int)
  }

  function DigitChar(d: nat): (c: char)
    requires d < 10
    ensures IsDigit(c) && DigitValue(c) == d
  {
    (('0' as int) + d) as char
  }

  predicate AllDigits(s: string) {
    forall i | 0 <= i < |s| :: IsDigit(s[i])
  }

  /** The longest prefix of `s` made of decimal digits: the part `parseInt` reads before it
      stops at the first character that is not a digit. */
  function LeadingDigits(s: string): (ds: string)
    ensures ds <= s && AllDigits(ds)
    ensures |ds| < |s| ==> !IsDigit(s[|ds|])
  {
    if s == [] || !IsDigit(s[0]) then [] else [s[0]] + LeadingDigits(s[1..])
  }

  /** The value of a string of decimal digits, most significant digit first. */
  function DigitsValue(ds: string): (n: nat)
    requires AllDigits(ds)
  {
    if ds == [] then 0 else DigitsValue(ds[..|ds| - 1]) * 10 + DigitValue(ds[|ds| - 1])
  }

  /** The text with a leading `+` or `-` removed. */
  function Unsigned(s: string): (body: string) {
    if |s| > 0 && (s[0] == '-' || s[0] == '+') then s[1..] else s
  }

  /** `parseInt` yields a number (not `NaN`) exactly when a digit follows the optional sign. */
  predicate HasLeadingInteger(s: string) {
    var body := Unsigned(s);
    |body| > 0 && IsDigit(body[0])
  }

  /** An optional sign, then the value of the leading digits; parsing stops at the first
      character that is not a digit. */
  function ParseInt(s: string): (n: int)
    requires HasLeadingInteger(s)
    ensures (if n < 0 then -n else n) == DigitsValue(LeadingDigits(Unsigned(s)))
    ensures s[0] == '-' ==> n <= 0
    ensures s[0] != '-' ==> n >= 0
  {
    var magnitude: int := DigitsValue(LeadingDigits(Unsigned(s)));
    if |s| > 0 && s[0] == '-' then -magnitude else magnitude
  }

  /** The shortest decimal numeral of a natural number. */
  function Decimal(n: nat): (s: string)
    ensures |s| > 0 && AllDigits(s)
  {
    if n < 10 then [DigitChar(n)] else Decimal(n / 10) + [DigitChar(n % 10)]
  }

  /** The decimal numeral of an integer, with a `-` for negative values: the text a
      number input holds for a whole number. */
  function Numeral(n: int): (s: string) {
    if n < 0 then "-" + Decimal(-n) else Decimal(n)
  }

  lemma {:induction false} DecimalValue(n: nat)
    ensures DigitsValue(Decimal(n)) == n
  {
    if n >= 10 {
      var s := Decimal(n);
      assert s[..|s| - 1] == Decimal(n / 10);
      DecimalValue(n / 10);
    }
  }

  lemma {:induction false} LeadingDigitsStopAtNonDigit(ds: string, tail: string)
    requires AllDigits(ds)
    requires tail == [] || !IsDigit(tail[0])
    ensures LeadingDigits(ds + tail) == ds
  {
    if ds != [] {
      assert (ds + tail)[1..] == ds[1..] + tail;
      LeadingDigitsStopAtNonDigit(ds[1..], tail);
    } else {
      assert ds + tail == tail;
    }
  }

  /** Parsing reads back the numeral of any integer, and ignores whatever follows it once a
      non-digit is reached (so `"12.5"` and `"12e3"` both parse to 12). */
  lemma ParseIntNumeral(n: int, tail: string)
    requires tail == [] || !IsDigit(tail[0])
    ensures HasLeadingInteger(Numeral(n) + tail)
    ensures ParseInt(Numeral(n) + tail) == n
  {
    var magnitude: nat := if n < 0 then -n else n;
    var digits := Decimal(magnitude);
    if n < 0 {
      assert Numeral(n) + tail == ['-'] + (digits + tail);
      assert Unsigned(Numeral(n) + tail) == digits + tail;
    } else {
      assert Unsigned(Numeral(n) + tail) == digits + tail;
    }
    LeadingDigitsStopAtNonDigit(digits, tail);
    DecimalValue(magnitude);
  }
}
