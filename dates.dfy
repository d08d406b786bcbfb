/** Transaction dates: what `datetime.strptime(date, '%Y-%m-%d')` accepts,
    the zero-padded `YYYY-MM-DD` form the tracker's error message asks for,
    and what SQLite's `strftime('%Y-%m', date)` makes of a stored date. */
module Dates {
  import opened Wrappers
  import opened Text

  predicate IsDigit(c: char) {
    '0' <= c <= '9'
  }

  predicate AllDigits(s: string) {
    forall k :: 0 <= k < |s| ==> IsDigit(s[k])
  }

  function Digit(c: char): (d: nat)
    requires IsDigit(c)
    ensures d < 10
  {
    c as int - '0' as int
  }

  function Pow10(n: nat): (p: nat)
    ensures p >= 1
  {
    if n == 0 then 1 else 10 * Pow10(n - 1)
  }

  /** The decimal value of a string of digits, most significant first. */
  function DigitsValue(s: string): (v: nat)
    requires AllDigits(s)
    ensures v < Pow10(|s|)
  {
    if s == [] then 0
    else
      var rest := DigitsValue(s[1..]);
      DigitPlace(Digit(s[0]), rest, Pow10(|s| - 1));
      Digit(s[0]) * Pow10(|s| - 1) + rest
  }

  /** A digit `d` in front of a `p`-place rest stays below `10 * p`. */
  lemma DigitPlace(d: nat, rest: nat, p: nat)
    requires d < 10 && rest < p
    ensures d * p + rest < 10 * p
  {
    assert d * p <= 9 * p;
  }

  predicate IsLeapYear(y: int) {
    y % 4 == 0 && (y % 100 != 0 || y % 400 == 0)
  }

  function DaysInMonth(y: int, m: int): (n: int)
    requires 1 <= m <= 12
    ensures 28 <= n <= 31
  {
    if m == 2 then (if IsLeapYear(y) then 29 else 28)
    else if m == 4 || m == 6 || m == 9 || m == 11 then 30
    else 31
  }

  /** A calendar date of the proleptic Gregorian calendar, as Python's
      `datetime.date` accepts it. */
  predicate IsCalendarDate(y: int, m: int, d: int) {
    1 <= y && 1 <= m <= 12 && 1 <= d <= DaysInMonth(y, m)
  }

  /** strptime's `%m`: `1[0-2] | 0[1-9] | [1-9]`. */
  predicate MonthToken(t: string) {
    || (|t| == 2 && t[0] == '1' && '0' <= t[1] <= '2')
    || (|t| == 2 && t[0] == '0' && '1' <= t[1] <= '9')
    || (|t| == 1 && '1' <= t[0] <= '9')
  }

  /** strptime's `%d`: `3[01] | [12]\d | 0[1-9] | [1-9] | ' '[1-9]`. */
  predicate DayToken(t: string) {
    || (|t| == 2 && t[0] == '3' && '0' <= t[1] <= '1')
    || (|t| == 2 && '1' <= t[0] <= '2' && IsDigit(t[1]))
    || (|t| == 2 && t[0] == '0' && '1' <= t[1] <= '9')
    || (|t| == 2 && t[0] == ' ' && '1' <= t[1] <= '9')
    || (|t| == 1 && '1' <= t[0] <= '9')
  }

  /** The number a `%m` or `%d` token stands for (a leading space counts as 0). */
  function TokenValue(t: string): (v: nat)
    requires MonthToken(t) || DayToken(t)
    ensures 1 <= v <= 31
    ensures MonthToken(t) ==> v <= 12
  {
    if |t| == 1 then Digit(t[0])
    else (if t[0] == ' ' then 0 else Digit(t[0])) * 10 + Digit(t[1])
  }

  /** Where the second `-` of a strptime date must stand: right after a
      one-character month, or after a two-character one. */
  function SecondDash(s: string): (k: nat)
    requires |s| >= 8
    ensures k == 6 || k == 7
  {
    if s[6] == '-' then 6 else 7
  }

  /** `datetime.strptime(s, '%Y-%m-%d')` returns instead of raising
      ValueError: four digits, `-`, a `%m` token, `-`, a `%d` token that
      ends the string, and a real calendar date with a year from 1.
      This is the check as written; it lets unpadded dates such as
      "2024-1-5" through (see UnpaddedDateAccepted). */
  predicate StrptimeAccepts(s: string) {
    && |s| >= 8
    && AllDigits(s[..4])
    && s[4] == '-'
    && var k := SecondDash(s);
    && s[k] == '-'
    && MonthToken(s[5..k])
    && DayToken(s[k + 1..])
    && IsCalendarDate(DigitsValue(s[..4]), TokenValue(s[5..k]), TokenValue(s[k + 1..]))
  }

  /** The zero-padded form `YYYY-MM-DD` of a calendar date: the format the
      tracker's validation message names, and the only one SQLite's date
      functions read. This is the date check the model's validation uses. */
  predicate IsIsoDate(s: string) {
    && |s| == 10
    && AllDigits(s[..4]) && s[4] == '-'
    && AllDigits(s[5..7]) && s[7] == '-'
    && AllDigits(s[8..])
    && IsCalendarDate(DigitsValue(s[..4]), DigitsValue(s[5..7]), DigitsValue(s[8..]))
  }

  function Year(s: string): nat requires IsIsoDate(s) { DigitsValue(s[..4]) }
  function Month(s: string): nat requires IsIsoDate(s) { DigitsValue(s[5..7]) }
  function Day(s: string): nat requires IsIsoDate(s) { DigitsValue(s[8..]) }

  /** SQLite's `strftime('%Y-%m', s)` on the dates that reach it, those
      strptime accepts: the year and month of a zero-padded date, and NULL
      (None) for an unpadded one, since SQLite's date parser requires
      two-digit months and days. Other texts SQLite also reads as times
      (with a time of day, "now", Julian day numbers) never pass the date
      check and are not modelled. */
  function SqliteMonth(s: string): (r: Option<string>)
    ensures r.Some? <==> IsIsoDate(s)
    ensures r.Some? ==> r.value == s[..7] && |r.value| == 7 && r.value[4] == '-'
  {
    if IsIsoDate(s) then Some(s[..7]) else None
  }

  /** Every zero-padded date passes strptime: the corrected check only
      rejects more. */
  lemma IsoDateAccepted(s: string)
    requires IsIsoDate(s)
    ensures StrptimeAccepts(s)
  {
    assert s[6] != '-' by { assert s[6] == s[5..7][1]; }
    assert SecondDash(s) == 7;
    assert s[5..7] == [s[5], s[6]] && s[8..] == [s[8], s[9]];
    assert IsDigit(s[5..7][0]) && IsDigit(s[5..7][1]);
    assert IsDigit(s[8..][0]) && IsDigit(s[8..][1]);
    TwoDigits(s[5..7]);
    TwoDigits(s[8..]);
  }

  /** The value of a two-digit string. */
  lemma TwoDigits(s: string)
    requires |s| == 2 && AllDigits(s)
    ensures DigitsValue(s) == Digit(s[0]) * 10 + Digit(s[1])
  {
    assert s[1..] == [s[1]] && s[1..][1..] == [];
  }

  /** The discrepancy: strptime accepts "2024-1-5", which is not
      zero-padded, so SQLite's strftime gives NULL for it and a month
      filter never matches it. */
  lemma UnpaddedDateAccepted()
    ensures StrptimeAccepts("2024-1-5")
    ensures !IsIsoDate("2024-1-5")
    ensures SqliteMonth("2024-1-5") == None
  {
    var s := "2024-1-5";
    assert s[..4] == "2024" && s[5..6] == "1" && s[7..] == "5";
    Year2024();
    assert SecondDash(s) == 6;
  }

  /** The discrepancy in order: text comparison, which ORDER BY date and the
      date-range filters use, puts 5 January 2024 written "2024-1-5" after
      6 January 2024 written "2024-01-06", though both pass strptime. */
  lemma UnpaddedDateMisordered()
    ensures StrptimeAccepts("2024-01-06") && StrptimeAccepts("2024-1-5")
    ensures TextLe("2024-01-06", "2024-1-5") && !TextLe("2024-1-5", "2024-01-06")
  {
    UnpaddedDateAccepted();
    SixthOfJanuary();
    var s, t := "2024-01-06", "2024-1-5";
    assert s[1..] == "024-01-06" && t[1..] == "024-1-5";
    assert s[2..] == "24-01-06" && t[2..] == "24-1-5";
    assert s[3..] == "4-01-06" && t[3..] == "4-1-5";
    assert s[4..] == "-01-06" && t[4..] == "-1-5";
    assert s[5..] == "01-06" && t[5..] == "1-5";
    assert TextLe(s[5..], t[5..]) && !TextLe(t[5..], s[5..]);
    assert TextLe(s[4..], t[4..]) && !TextLe(t[4..], s[4..]);
    assert TextLe(s[3..], t[3..]) && !TextLe(t[3..], s[3..]);
    assert TextLe(s[2..], t[2..]) && !TextLe(t[2..], s[2..]);
    assert TextLe(s[1..], t[1..]) && !TextLe(t[1..], s[1..]);
  }

  lemma Year2024()
    ensures DigitsValue("2024") == 2024
  {
    assert "2024"[1..] == "024" && "024"[1..] == "24" && "24"[1..] == "4" && "4"[1..] == "";
  }

  lemma SixthOfJanuary()
    ensures IsIsoDate("2024-01-06") && StrptimeAccepts("2024-01-06")
  {
    var s := "2024-01-06";
    assert s[..4] == "2024" && s[5..7] == "01" && s[8..] == "06";
    Year2024();
    TwoDigits("01");
    TwoDigits("06");
    IsoDateAccepted(s);
  }

  /** Chronological order of two calendar dates. */
  predicate ChronologicallyLe(a: string, b: string)
    requires IsIsoDate(a) && IsIsoDate(b)
  {
    || Year(a) < Year(b)
    || (Year(a) == Year(b) && Month(a) < Month(b))
    || (Year(a) == Year(b) && Month(a) == Month(b) && Day(a) <= Day(b))
  }

  /** If the leading digit of `a` is smaller, so is its value, whatever
      the remaining digits. */
  lemma LeadingDigitDecides(da: nat, ra: nat, db: nat, rb: nat, p: nat)
    requires da < db && ra < p
    ensures da * p + ra < db * p + rb
  {
    assert (da + 1) * p <= db * p;
  }

  /** For digit strings of one length, text order is numeric order. */
  lemma {:induction false} DigitsOrder(a: string, b: string)
    requires AllDigits(a) && AllDigits(b) && |a| == |b|
    ensures TextLe(a, b) <==> DigitsValue(a) <= DigitsValue(b)
    ensures a == b <==> DigitsValue(a) == DigitsValue(b)
  {
    if a != [] {
      DigitsOrder(a[1..], b[1..]);
      LeadDecidesText(a, b);
      LeadDecidesText(b, a);
      if a[0] < b[0] {
        LeadingDigitLess(a, b);
      } else if b[0] < a[0] {
        LeadingDigitLess(b, a);
      } else {
        LeadingDigitSame(a, b);
      }
    }
  }

  /** A smaller leading digit makes a smaller value. */
  lemma LeadingDigitLess(a: string, b: string)
    requires AllDigits(a) && AllDigits(b) && |a| == |b| > 0 && a[0] < b[0]
    ensures DigitsValue(a) < DigitsValue(b)
  {
    DigitsSplit(a);
    DigitsSplit(b);
    LeadingDigitDecides(Digit(a[0]), DigitsValue(a[1..]), Digit(b[0]), DigitsValue(b[1..]), Pow10(|a| - 1));
  }

  /** Equal leading digits leave the comparison to the rest. */
  lemma LeadingDigitSame(a: string, b: string)
    requires AllDigits(a) && AllDigits(b) && |a| == |b| > 0 && a[0] == b[0]
    ensures DigitsValue(a) - DigitsValue(b) == DigitsValue(a[1..]) - DigitsValue(b[1..])
  {
    DigitsSplit(a);
    DigitsSplit(b);
  }

  /** A digit string's value is its leading digit in the top place plus
      the value of the rest. */
  lemma DigitsSplit(s: string)
    requires AllDigits(s) && s != []
    ensures DigitsValue(s) == Digit(s[0]) * Pow10(|s| - 1) + DigitsValue(s[1..])
  {
  }

  /** The leading character decides the text order; equal leading
      characters leave it to the rest. */
  lemma LeadDecidesText(a: string, b: string)
    requires |a| == |b| > 0
    ensures a[0] < b[0] ==> TextLe(a, b) && a != b
    ensures a[0] == b[0] ==> (TextLe(a, b) <==> TextLe(a[1..], b[1..])) && (a == b <==> a[1..] == b[1..])
  {
    assert a == [a[0]] + a[1..] && b == [b[0]] + b[1..];
  }

  /** Text order of two strings that agree up to a common length `|x|`
      is decided by the first differing part. */
  lemma {:induction false} TextLeAppend(x: string, y: string, x': string, y': string)
    requires |x| == |x'|
    ensures TextLe(x + y, x' + y') <==> if x == x' then TextLe(y, y') else TextLe(x, x')
  {
    if x == [] {
      assert x + y == y && x' + y' == y';
    } else {
      assert (x + y)[0] == x[0] && (x' + y')[0] == x'[0];
      assert (x + y)[1..] == x[1..] + y && (x' + y')[1..] == x'[1..] + y';
      TextLeAppend(x[1..], y, x'[1..], y');
      assert x == [x[0]] + x[1..] && x' == [x'[0]] + x'[1..];
    }
  }

  /** The intended property of the zero-padded format: comparing two dates
      as text, as ORDER BY date and the date-range filters do, is
      comparing them chronologically. */
  lemma IsoTextOrderIsChronological(a: string, b: string)
    requires IsIsoDate(a) && IsIsoDate(b)
    ensures TextLe(a, b) <==> ChronologicallyLe(a, b)
  {
    assert a == a[..4] + ("-" + (a[5..7] + ("-" + a[8..])));
    assert b == b[..4] + ("-" + (b[5..7] + ("-" + b[8..])));
    TextLeAppend(a[..4], "-" + (a[5..7] + ("-" + a[8..])), b[..4], "-" + (b[5..7] + ("-" + b[8..])));
    TextLeAppend("-", a[5..7] + ("-" + a[8..]), "-", b[5..7] + ("-" + b[8..]));
    TextLeAppend(a[5..7], "-" + a[8..], b[5..7], "-" + b[8..]);
    TextLeAppend("-", a[8..], "-", b[8..]);
    DigitsOrder(a[..4], b[..4]);
    DigitsOrder(a[5..7], b[5..7]);
    DigitsOrder(a[8..], b[8..]);
  }
}
