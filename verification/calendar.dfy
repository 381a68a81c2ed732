/** Proleptic Gregorian calendar dates and their `YYYY-MM-DD` text form
    (the `full-date` production of section 5.6 of RFC 3339, with the
    month lengths and leap-year rule of section 5.7 and Appendix C). */
module Calendar {
  import opened Wrappers

  datatype Date = Date(year: nat, month: nat, day: nat)

  predicate IsLeapYear(y: nat) {
    y % 4 == 0 && (y % 100 != 0 || y % 400 == 0)
  }

  function DaysInMonth(y: nat, m: nat): (n: nat)
    requires 1 <= m <= 12
    ensures 28 <= n <= 31
    ensures n == 29 <==> m == 2 && IsLeapYear(y)
  {
    if m == 2 then (if IsLeapYear(y) then 29 else 28)
    else if m == 4 || m == 6 || m == 9 || m == 11 then 30
    else 31
  }

  /** A real calendar day. */
  predicate ValidDate(d: Date) {
    1 <= d.month <= 12 && 1 <= d.day <= DaysInMonth(d.year, d.month)
  }

  function YearLength(y: nat): nat {
    if IsLeapYear(y) then 366 else 365
  }

  /** Days in the years 0 .. y-1. */
  function DaysBeforeYear(y: nat): nat {
    if y == 0 then 0 else DaysBeforeYear(y - 1) + YearLength(y - 1)
  }

  /** Days in the months 1 .. m-1 of year y. */
  function DaysBeforeMonth(y: nat, m: nat): (n: nat)
    requires 1 <= m <= 12
    ensures n + DaysInMonth(y, m) <= YearLength(y)
    ensures m == 12 ==> n + DaysInMonth(y, m) == YearLength(y)
  {
    (if m == 1 then 0 else if m == 2 then 31 else if m == 3 then 59
     else if m == 4 then 90 else if m == 5 then 120 else if m == 6 then 151
     else if m == 7 then 181 else if m == 8 then 212 else if m == 9 then 243
     else if m == 10 then 273 else if m == 11 then 304 else 334)
    + (if m > 2 && IsLeapYear(y) then 1 else 0)
  }

  lemma DaysBeforeNextMonth(y: nat, m: nat)
    requires 1 <= m < 12
    ensures DaysBeforeMonth(y, m + 1) == DaysBeforeMonth(y, m) + DaysInMonth(y, m)
  {
  }

  /** Day number of `d`, counting 0000-01-01 as day 0. */
  function Ordinal(d: Date): nat
    requires ValidDate(d)
  {
    DaysBeforeYear(d.year) + DaysBeforeMonth(d.year, d.month) + d.day - 1
  }

  /** The calendar day after `d`. */
  function NextDay(d: Date): (r: Date)
    requires ValidDate(d)
    ensures ValidDate(r)
    ensures Ordinal(r) == Ordinal(d) + 1
  {
    if d.day < DaysInMonth(d.year, d.month) then Date(d.year, d.month, d.day + 1)
    else if d.month < 12 then
      DaysBeforeNextMonth(d.year, d.month);
      Date(d.year, d.month + 1, 1)
    else Date(d.year + 1, 1, 1)
  }

  lemma {:induction false} DaysBeforeYearGrows(a: nat, b: nat)
    requires a < b
    ensures DaysBeforeYear(a) + YearLength(a) <= DaysBeforeYear(b)
    decreases b - a
  {
    if a + 1 < b {
      DaysBeforeYearGrows(a + 1, b);
    }
  }

  /** Every day of year y lies in [DaysBeforeYear(y), DaysBeforeYear(y+1)). */
  lemma OrdinalInYear(d: Date)
    requires ValidDate(d)
    ensures DaysBeforeYear(d.year) <= Ordinal(d) < DaysBeforeYear(d.year) + YearLength(d.year)
  {
    DaysBeforeMonthMonotone(d.year, d.month, 12);
  }

  lemma {:induction false} DaysBeforeMonthMonotone(y: nat, m: nat, k: nat)
    requires 1 <= m <= k <= 12
    ensures DaysBeforeMonth(y, m) + DaysInMonth(y, m) <= DaysBeforeMonth(y, k) + DaysInMonth(y, k)
    decreases k - m
  {
    if m < k {
      DaysBeforeNextMonth(y, m);
      DaysBeforeMonthMonotone(y, m + 1, k);
    }
  }

  /** Day numbers are ordered like the dates: an earlier-or-equal day number
      never has a later year. */
  lemma OrdinalOrdersYears(a: Date, b: Date)
    requires ValidDate(a) && ValidDate(b)
    requires Ordinal(a) <= Ordinal(b)
    ensures a.year <= b.year
  {
    OrdinalInYear(a);
    OrdinalInYear(b);
    if b.year < a.year {
      DaysBeforeYearGrows(b.year, a.year);
    }
  }

  /** Distinct valid dates have distinct day numbers. */
  lemma OrdinalInjective(a: Date, b: Date)
    requires ValidDate(a) && ValidDate(b)
    requires Ordinal(a) == Ordinal(b)
    ensures a == b
  {
    OrdinalOrdersYears(a, b);
    OrdinalOrdersYears(b, a);
    if a.month < b.month {
      DaysBeforeMonthMonotone(a.year, a.month, b.month - 1);
    } else if b.month < a.month {
      DaysBeforeMonthMonotone(b.year, b.month, a.month - 1);
    }
  }

  // ---- Text form ------------------------------------------------------

  predicate IsDigit(c: char) {
    '0' <= c <= '9'
  }

  function DigitChar(k: nat): (c: char)
    requires k < 10
    ensures IsDigit(c)
  {
    ('0' as int + k) as char
  }

  function DigitValue(c: char): (k: nat)
    requires IsDigit(c)
    ensures k < 10 && DigitChar(k) == c
  {
    c as int - '0' as int
  }

  /** Two decimal digits, zero padded. */
  function Pad2(n: nat): (s: string)
    requires n < 100
    ensures |s| == 2 && IsDigit(s[0]) && IsDigit(s[1])
    ensures 10 * DigitValue(s[0]) + DigitValue(s[1]) == n
  {
    [DigitChar(n / 10), DigitChar(n % 10)]
  }

  /** Four decimal digits, zero padded. */
  function Pad4(n: nat): (s: string)
    requires n < 10000
    ensures |s| == 4 && s[..2] == Pad2(n / 100) && s[2..] == Pad2(n % 100)
  {
    Pad2(n / 100) + Pad2(n % 100)
  }

  /** The `YYYY-MM-DD` form of `d` (what `toISOString().split('T')[0]`
      yields for a date at midday UTC with a four-digit year). */
  function Format(d: Date): (s: string)
    requires ValidDate(d) && d.year <= 9999
    ensures |s| == 10 && s[4] == '-' && s[7] == '-'
  {
    Pad4(d.year) + "-" + Pad2(d.month) + "-" + Pad2(d.day)
  }

  function TwoDigits(a: char, b: char): (n: nat)
    requires IsDigit(a) && IsDigit(b)
    ensures n < 100
  {
    10 * DigitValue(a) + DigitValue(b)
  }

  /** Reads a `YYYY-MM-DD` string; `None` for any other shape and for a day
      the month does not have. Whatever it accepts is already in the form
      `Format` writes. */
  function Parse(s: string): (r: Option<Date>)
    ensures r.Some? ==> ValidDate(r.value) && r.value.year <= 9999 && Format(r.value) == s
  {
    if |s| == 10 && s[4] == '-' && s[7] == '-'
       && IsDigit(s[0]) && IsDigit(s[1]) && IsDigit(s[2]) && IsDigit(s[3])
       && IsDigit(s[5]) && IsDigit(s[6]) && IsDigit(s[8]) && IsDigit(s[9])
    then
      var d := Date(100 * TwoDigits(s[0], s[1]) + TwoDigits(s[2], s[3]),
                    TwoDigits(s[5], s[6]), TwoDigits(s[8], s[9]));
      if ValidDate(d) then
        FormatReadsBack(s);
        Some(d)
      else None
    else None
  }

  /** Only ten-character strings are read as dates. */
  lemma ParseNeedsTenChars(s: string)
    ensures Parse(s).Some? ==> |s| == 10
  {
  }

  /** Formatting the fields read from a well-shaped string rebuilds it. */
  lemma FormatReadsBack(s: string)
    requires |s| == 10 && s[4] == '-' && s[7] == '-'
    requires IsDigit(s[0]) && IsDigit(s[1]) && IsDigit(s[2]) && IsDigit(s[3])
    requires IsDigit(s[5]) && IsDigit(s[6]) && IsDigit(s[8]) && IsDigit(s[9])
    requires ValidDate(Date(100 * TwoDigits(s[0], s[1]) + TwoDigits(s[2], s[3]),
                            TwoDigits(s[5], s[6]), TwoDigits(s[8], s[9])))
    ensures 100 * TwoDigits(s[0], s[1]) + TwoDigits(s[2], s[3]) <= 9999
    ensures Format(Date(100 * TwoDigits(s[0], s[1]) + TwoDigits(s[2], s[3]),
                        TwoDigits(s[5], s[6]), TwoDigits(s[8], s[9]))) == s
  {
    var hi, lo := TwoDigits(s[0], s[1]), TwoDigits(s[2], s[3]);
    PadRoundTrip(s[0], s[1]);
    PadRoundTrip(s[2], s[3]);
    PadRoundTrip(s[5], s[6]);
    PadRoundTrip(s[8], s[9]);
    CenturySplit(hi, lo);
    var d := Date(100 * hi + lo, TwoDigits(s[5], s[6]), TwoDigits(s[8], s[9]));
    assert Pad4(d.year) == [s[0], s[1], s[2], s[3]];
    assert Format(d) == [s[0], s[1], s[2], s[3]] + "-" + [s[5], s[6]] + "-" + [s[8], s[9]];
  }

  lemma PadRoundTrip(a: char, b: char)
    requires IsDigit(a) && IsDigit(b)
    ensures Pad2(TwoDigits(a, b)) == [a, b]
  {
    var n := TwoDigits(a, b);
    DivMod(10, DigitValue(a), DigitValue(b));
  }

  lemma CenturySplit(hi: nat, lo: nat)
    requires hi < 100 && lo < 100
    ensures (100 * hi + lo) / 100 == hi && (100 * hi + lo) % 100 == lo
  {
    DivMod(100, hi, lo);
  }

  lemma DivMod(k: nat, q: nat, r: nat)
    requires 0 < k && r < k
    ensures (k * q + r) / k == q && (k * q + r) % k == r
  {
    var n := k * q + r;
    var q', r' := n / k, n % k;
    assert n == k * q' + r';
    if q' < q {
      MulAtLeast(k, q - q');
      assert false;
    } else if q < q' {
      MulAtLeast(k, q' - q);
      assert false;
    }
  }

  lemma {:induction false} MulAtLeast(k: nat, a: nat)
    requires 1 <= a
    ensures k * a >= k
  {
    if a > 1 {
      MulAtLeast(k, a - 1);
      assert k * a == k * (a - 1) + k;
    }
  }

  /** Where `Format` puts each field, digit pair by digit pair. */
  lemma FormatFields(d: Date)
    requires ValidDate(d) && d.year <= 9999
    ensures var s := Format(d);
            && IsDigit(s[0]) && IsDigit(s[1]) && IsDigit(s[2]) && IsDigit(s[3])
            && IsDigit(s[5]) && IsDigit(s[6]) && IsDigit(s[8]) && IsDigit(s[9])
            && TwoDigits(s[0], s[1]) == d.year / 100 && TwoDigits(s[2], s[3]) == d.year % 100
            && TwoDigits(s[5], s[6]) == d.month && TwoDigits(s[8], s[9]) == d.day
  {
    var s := Format(d);
    var hi, lo, m, dd := Pad2(d.year / 100), Pad2(d.year % 100), Pad2(d.month), Pad2(d.day);
    assert s == hi + lo + "-" + m + "-" + dd;
    assert s[0] == hi[0] && s[1] == hi[1] && s[2] == lo[0] && s[3] == lo[1];
    assert s[5] == m[0] && s[6] == m[1] && s[8] == dd[0] && s[9] == dd[1];
  }

  /** A well-shaped string whose digit pairs spell a valid date reads as
      that date. */
  lemma ReadFields(s: string, d: Date)
    requires |s| == 10 && s[4] == '-' && s[7] == '-'
    requires IsDigit(s[0]) && IsDigit(s[1]) && IsDigit(s[2]) && IsDigit(s[3])
    requires IsDigit(s[5]) && IsDigit(s[6]) && IsDigit(s[8]) && IsDigit(s[9])
    requires ValidDate(d)
    requires d == Date(100 * TwoDigits(s[0], s[1]) + TwoDigits(s[2], s[3]),
                       TwoDigits(s[5], s[6]), TwoDigits(s[8], s[9]))
    ensures Parse(s) == Some(d)
  {
  }

  /** Reading back what `Format` wrote gives the same date. */
  lemma ParseFormat(d: Date)
    requires ValidDate(d) && d.year <= 9999
    ensures Parse(Format(d)) == Some(d)
  {
    var s := Format(d);
    FormatFields(d);
    assert 100 * (d.year / 100) + d.year % 100 == d.year;
    ReadFields(s, d);
  }
}
