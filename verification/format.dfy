/** Text forms of numbers and dates as JavaScript renders them in template
    literals: decimal integers, one-decimal numbers, and `Date.prototype.toDateString`
    ("Sun Jan 15 2023"). */
module Format {
  import opened Wrappers
  import opened Calendar

  function Pow10(n: nat): (p: nat)
    ensures p >= 1
  {
    if n == 0 then 1 else 10 * Pow10(n - 1)
  }

  function DigitChar(k: nat): (c: char)
    requires k < 10
    ensures '0' <= c <= '9'
    ensures c as int - '0' as int == k
  {
    ('0' as int + k) as char
  }

  predicate IsDigit(c: char) {
    '0' <= c <= '9'
  }

  /** The last `width` decimal digits of `n`, most significant first. */
  function Digits(n: nat, width: nat): (s: string)
    ensures |s| == width
    ensures forall i :: 0 <= i < |s| ==> IsDigit(s[i])
  {
    if width == 0 then [] else Digits(n / 10, width - 1) + [DigitChar(n % 10)]
  }

  /** The number a string of decimal digits denotes. */
  function DigitsValue(s: string): nat
    requires forall i :: 0 <= i < |s| ==> IsDigit(s[i])
  {
    if s == [] then 0
    else
      assert IsDigit(s[|s| - 1]);
      10 * DigitsValue(s[..|s| - 1]) + (s[|s| - 1] as int - '0' as int)
  }

  lemma {:induction false} DigitsRoundTrip(n: nat, width: nat)
    requires n < Pow10(width)
    ensures DigitsValue(Digits(n, width)) == n
  {
    if width > 0 {
      var s := Digits(n, width);
      assert s[..|s| - 1] == Digits(n / 10, width - 1);
      DigitsRoundTrip(n / 10, width - 1);
    }
  }

  /** The number of decimal digits of `n` (one for zero). */
  function DigitCount(n: nat): (k: nat)
    ensures 1 <= k && n < Pow10(k)
  {
    if n < 10 then 1 else 1 + DigitCount(n / 10)
  }

  lemma {:induction false} DigitCountBound(n: nat, width: nat)
    requires width >= 1 && n < Pow10(width)
    ensures DigitCount(n) <= width
  {
    if n >= 10 {
      assert width >= 2;
      DigitCountBound(n / 10, width - 1);
    }
  }

  /** ToZeroPaddedDecimalString: the decimal digits of `n`, padded with zeros on the
      left to at least `width` characters. */
  function Padded(n: nat, width: nat): (s: string)
    ensures |s| >= width
    ensures width >= 1 && n < Pow10(width) ==> |s| == width
    ensures forall i :: 0 <= i < |s| ==> IsDigit(s[i])
  {
    var k := DigitCount(n);
    if width >= 1 && n < Pow10(width) then DigitCountBound(n, width); Digits(n, width)
    else Digits(n, if k < width then width else k)
  }

  lemma PaddedRoundTrip(n: nat, width: nat)
    ensures DigitsValue(Padded(n, width)) == n
  {
    var k := DigitCount(n);
    if width >= 1 && n < Pow10(width) {
      DigitsRoundTrip(n, width);
    } else {
      var w := if k < width then width else k;
      Pow10Monotone(k, w);
      DigitsRoundTrip(n, w);
    }
  }

  lemma {:induction false} Pow10Monotone(a: nat, b: nat)
    requires a <= b
    ensures Pow10(a) <= Pow10(b)
  {
    if a < b { Pow10Monotone(a, b - 1); }
  }

  /** An integer as a template literal shows it. */
  function IntText(n: int): (s: string)
    ensures s != []
    ensures n >= 0 ==> forall i :: 0 <= i < |s| ==> IsDigit(s[i])
    ensures n < 0 ==> s[0] == '-'
  {
    if n < 0 then "-" + Padded(-n, 0) else Padded(n, 0)
  }

  /** A number of tenths as `parseFloat(x.toFixed(1))` shows it: no trailing ".0",
      and no sign on zero. */
  function TenthsText(tenths: int): (s: string)
    ensures s != []
    ensures tenths % 10 == 0 ==> s == IntText(tenths / 10)
  {
    var a := if tenths < 0 then -tenths else tenths;
    var whole := (if tenths < 0 then "-" else "") + Padded(a / 10, 0);
    if a % 10 == 0 then IntText(tenths / 10) else whole + "." + [DigitChar(a % 10)]
  }

  predicate AllDigits(s: string) {
    forall i :: 0 <= i < |s| ==> IsDigit(s[i])
  }

  /** Reads a number of tenths back from an unsigned text: decimal digits, and
      optionally '.' and one more digit. */
  function UnsignedTenths(body: string): Option<int> {
    if |body| >= 3 && body[|body| - 2] == '.' then FractionTenths(body[..|body| - 2], body[|body| - 1])
    else WholeTenths(body)
  }

  function FractionTenths(digits: string, c: char): Option<int> {
    if AllDigits(digits) && IsDigit(c) then Some(10 * DigitsValue(digits) + (c as int - '0' as int)) else None
  }

  function WholeTenths(digits: string): Option<int> {
    if |digits| >= 1 && AllDigits(digits) then Some(10 * DigitsValue(digits)) else None
  }

  /** Reads a number of tenths back from its text, with an optional '-'. */
  function ParseTenths(s: string): Option<int> {
    if |s| > 0 && s[0] == '-' then
      var m := UnsignedTenths(s[1..]);
      if m.None? then None else Some(-m.value)
    else UnsignedTenths(s)
  }

  /** The age text loses nothing: it reads back as the number of tenths, fractional
      ("2.5", "-0.5") or whole ("3"). */
  lemma TenthsTextRoundTrip(tenths: int)
    ensures ParseTenths(TenthsText(tenths)) == Some(tenths)
  {
    var a := if tenths < 0 then -tenths else tenths;
    if a % 10 == 0 {
      WholeTenthsRoundTrip(tenths, a);
    } else {
      FractionalTenthsRoundTrip(tenths, a);
    }
  }

  lemma WholeTenthsRoundTrip(tenths: int, a: nat)
    requires a == (if tenths < 0 then -tenths else tenths) && a % 10 == 0
    ensures ParseTenths(TenthsText(tenths)) == Some(tenths)
  {
    var sign := if tenths < 0 then "-" else "";
    var digits := Padded(a / 10, 0);
    assert TenthsText(tenths) == sign + digits by {
      if tenths < 0 {
        assert tenths / 10 == -(a / 10);
      }
    }
    assert ParseTenths(sign + digits) == Some(tenths) by {
      PaddedRoundTrip(a / 10, 0);
      ParseWhole(digits);
      assert 10 * (a / 10) == a;
      ParseSigned(sign, digits, a);
    }
  }

  lemma FractionalTenthsRoundTrip(tenths: int, a: nat)
    requires a == (if tenths < 0 then -tenths else tenths) && a % 10 != 0
    ensures ParseTenths(TenthsText(tenths)) == Some(tenths)
  {
    FractionalTenthsShape(tenths, a);
    ParseTenthsOfShape(TenthsText(tenths), tenths, a);
  }

  lemma ParseTenthsOfShape(t: string, tenths: int, a: nat)
    requires a == (if tenths < 0 then -tenths else tenths) && a % 10 != 0
    requires var k := if tenths < 0 then 1 else 0;
      |t| >= k + 3 && (t[0] == '-' <==> k == 1) && t[k..|t| - 2] == Padded(a / 10, 0)
      && t[|t| - 2] == '.' && t[|t| - 1] == DigitChar(a % 10)
    ensures ParseTenths(t) == Some(tenths)
  {
    var k := if tenths < 0 then 1 else 0;
    PaddedRoundTrip(a / 10, 0);
    assert 10 * (a / 10) + a % 10 == a;
    ParseFractionText(t, k, a);
  }

  /** Where the parts of a fractional age text sit: an optional '-', the whole
      digits, '.', and the tenths digit. */
  lemma FractionalTenthsShape(tenths: int, a: nat)
    requires a == (if tenths < 0 then -tenths else tenths) && a % 10 != 0
    ensures var t, k := TenthsText(tenths), if tenths < 0 then 1 else 0;
      |t| >= k + 3 && (t[0] == '-' <==> k == 1) && t[k..|t| - 2] == Padded(a / 10, 0)
      && t[|t| - 2] == '.' && t[|t| - 1] == DigitChar(a % 10)
  {
    var digits := Padded(a / 10, 0);
    var body := digits + "." + [DigitChar(a % 10)];
    if tenths < 0 {
      var t := "-" + body;
      assert TenthsText(tenths) == t;
      assert t[1..|t| - 2] == digits;
    } else {
      assert TenthsText(tenths) == body;
      assert body[0] == digits[0];
      assert body[0..|body| - 2] == digits;
    }
  }

  /** A text of that shape reads back as its signed number of tenths. */
  lemma ParseFractionText(t: string, k: nat, m: nat)
    requires k <= 1 && |t| >= k + 3 && (t[0] == '-' <==> k == 1)
    requires AllDigits(t[k..|t| - 2]) && t[|t| - 2] == '.' && IsDigit(t[|t| - 1])
    requires m == 10 * DigitsValue(t[k..|t| - 2]) + (t[|t| - 1] as int - '0' as int)
    ensures ParseTenths(t) == Some(if k == 1 then -(m as int) else m as int)
  {
    if k == 1 {
      var body := t[1..];
      assert body[..|body| - 2] == t[k..|t| - 2];
      assert body[|body| - 2] == '.' && body[|body| - 1] == t[|t| - 1];
    } else {
      assert t[..|t| - 2] == t[k..|t| - 2];
    }
  }

  lemma ParseWhole(digits: string)
    requires |digits| >= 1 && AllDigits(digits)
    ensures UnsignedTenths(digits) == Some(10 * DigitsValue(digits))
  {
    assert IsDigit(digits[0]) && IsDigit(digits[|digits| - 2 + 1]);
  }

  /** A text with an optional sign reads back as the signed value of its unsigned
      part. */
  lemma ParseSigned(sign: string, body: string, magnitude: int)
    requires sign == "-" || sign == ""
    requires |body| >= 1 && IsDigit(body[0])
    requires UnsignedTenths(body) == Some(magnitude)
    ensures ParseTenths(sign + body) == Some(if sign == "-" then -magnitude else magnitude)
  {
    var s := sign + body;
    if sign == "-" {
      assert s[0] == '-' && s[1..] == body;
      ParseNegative(s, body, magnitude);
    } else {
      assert s == body;
      ParseNonNegative(s, magnitude);
    }
  }

  lemma ParseNegative(s: string, body: string, magnitude: int)
    requires |s| > 0 && s[0] == '-' && s[1..] == body
    requires UnsignedTenths(body) == Some(magnitude)
    ensures ParseTenths(s) == Some(-magnitude)
  {
  }

  lemma ParseNonNegative(s: string, magnitude: int)
    requires |s| > 0 && IsDigit(s[0])
    requires UnsignedTenths(s) == Some(magnitude)
    ensures ParseTenths(s) == Some(magnitude)
  {
  }

  const WeekdayNames: seq<string> := ["Sun", "Mon", "Tue", "Wed", "Thu", "Fri", "Sat"]
  const MonthNames: seq<string> :=
    ["Jan", "Feb", "Mar", "Apr", "May", "Jun", "Jul", "Aug", "Sep", "Oct", "Nov", "Dec"]

  /** 0 for Sunday up to 6 for Saturday; 1 January 1970 was a Thursday. */
  function Weekday(d: Date): (w: nat)
    requires ValidDate(d)
    ensures w < 7
  {
    (DaysSinceEpoch(d) + 4) % 7
  }

  /** The weekday advances by one each day. */
  lemma WeekdayNextDay(d: Date)
    requires ValidDate(d)
    ensures Weekday(NextDay(d)) == (Weekday(d) + 1) % 7
  {
    DaysSinceEpochNextDay(d);
    NextRemainder(DaysSinceEpoch(d) + 4);
  }

  lemma NextRemainder(k: int)
    ensures (k + 1) % 7 == (k % 7 + 1) % 7
  {
  }

  /** 1 January 1970 was a Thursday and 15 January 2023 a Sunday. */
  lemma WeekdayAnchors()
    ensures Weekday(Date(1970, 1, 1)) == 4
    ensures Weekday(Date(2023, 1, 15)) == 0
  {
  }

  /** `Date.prototype.toDateString`: weekday, month, two-digit day and a year of at
      least four digits, separated by spaces. */
  function DateString(d: Date): (s: string)
    requires ValidDate(d)
    ensures 0 <= d.year <= 9999 ==> |s| == 15
  {
    assert Pow10(2) == 100 && Pow10(4) == 10000;
    var sign := if d.year < 0 then "-" else "";
    var year := if d.year < 0 then -d.year else d.year;
    WeekdayNames[Weekday(d)] + " " + MonthNames[d.month - 1] + " " + Padded(d.day, 2)
      + " " + sign + Padded(year, 4)
  }

  /** The month number whose abbreviation is `name`. */
  function MonthNumber(name: string): (m: Option<int>)
    ensures m.Some? ==> 1 <= m.value <= 12 && MonthNames[m.value - 1] == name
  {
    if name == "Jan" then Some(1) else if name == "Feb" then Some(2)
    else if name == "Mar" then Some(3) else if name == "Apr" then Some(4)
    else if name == "May" then Some(5) else if name == "Jun" then Some(6)
    else if name == "Jul" then Some(7) else if name == "Aug" then Some(8)
    else if name == "Sep" then Some(9) else if name == "Oct" then Some(10)
    else if name == "Nov" then Some(11) else if name == "Dec" then Some(12)
    else None
  }

  /** Reads back a date written by `DateString` for a year of four digits. */
  function ParseDateString(s: string): Option<Date> {
    if |s| != 15 then None
    else
      var month := MonthNumber(s[4..7]);
      if month.None? then None
      else if !(forall i :: 8 <= i < 10 ==> IsDigit(s[i])) then None
      else if !(forall i :: 11 <= i < 15 ==> IsDigit(s[i])) then None
      else Some(Date(DigitsValue(s[11..15]), month.value, DigitsValue(s[8..10])))
  }

  /** The text of a date with a four-digit year determines the date. */
  lemma DateStringRoundTrip(d: Date)
    requires ValidDate(d) && 0 <= d.year <= 9999
    ensures ParseDateString(DateString(d)) == Some(d)
  {
    var w := WeekdayNames[Weekday(d)];
    var m := MonthNames[d.month - 1];
    var dd := Padded(d.day, 2);
    var yy := Padded(d.year, 4);
    assert Pow10(2) == 100 && Pow10(4) == 10000;
    NamesHaveThreeLetters(Weekday(d), d.month);
    var s := DateString(d);
    assert s == w + " " + m + " " + dd + " " + yy;
    DateFields(w, m, dd, yy);
    MonthNumberOfName(d.month);
    PaddedRoundTrip(d.day, 2);
    PaddedRoundTrip(d.year, 4);
  }

  lemma NamesHaveThreeLetters(w: nat, month: int)
    requires w < 7 && 1 <= month <= 12
    ensures |WeekdayNames[w]| == 3 && |MonthNames[month - 1]| == 3
  {
  }

  lemma MonthNumberOfName(month: int)
    requires 1 <= month <= 12
    ensures MonthNumber(MonthNames[month - 1]) == Some(month)
  {
  }

  /** Where the fields sit in a text laid out as `DateString` lays it out. */
  lemma DateFields(w: string, m: string, dd: string, yy: string)
    requires |w| == 3 && |m| == 3 && |dd| == 2 && |yy| == 4
    ensures var s := w + " " + m + " " + dd + " " + yy;
      |s| == 15 && s[4..7] == m && s[8..10] == dd && s[11..15] == yy
  {
    var s := w + " " + m + " " + dd + " " + yy;
    assert s == (w + " ") + (m + " ") + (dd + " ") + yy;
  }

  lemma DateStringInjective(a: Date, b: Date)
    requires ValidDate(a) && 0 <= a.year <= 9999
    requires ValidDate(b) && 0 <= b.year <= 9999
    requires DateString(a) == DateString(b)
    ensures a == b
  {
    DateStringRoundTrip(a);
    DateStringRoundTrip(b);
  }

  lemma DateStringExample()
    ensures DateString(Date(2023, 1, 15)) == "Sun Jan 15 2023"
  {
    WeekdayAnchors();
    assert Padded(15, 2) == "15";
    assert Padded(2023, 4) == "2023";
  }
}
