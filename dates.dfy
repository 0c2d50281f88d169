/**
  Calendar dates as the tracker reads and writes them: the fixed text form
  MM-DD-YYYY (strptime/strftime with "%m-%d-%Y"), calendar validity as
  Python's datetime checks it, and the chronological order used by the
  date-range query.
*/
module Dates {
  import opened Wrappers
  import opened Text

  /** A (year, month, day) triple; ValidDate says when it names a real day. */
  datatype Date = Date(year: int, month: int, day: int)

  predicate IsLeapYear(y: int) {
    y % 4 == 0 && (y % 100 != 0 || y % 400 == 0)
  }

  function DaysInMonth(y: int, m: int): (n: int)
    requires 1 <= m <= 12
    ensures 28 <= n <= 31
  {
    if m == 2 then (if IsLeapYear(y) then 29 else 28)
    else if m == 4 || m == 6 || m == 9 || m == 11 then 30
    else 31
  }

  /** Python's datetime accepts years 1 through 9999 and days that exist in their month. */
  predicate ValidDate(d: Date) {
    && 1 <= d.year <= 9999
    && 1 <= d.month <= 12
    && 1 <= d.day <= DaysInMonth(d.year, d.month)
  }

  /** strftime("%m-%d-%Y"): two-digit month, two-digit day, four-digit year. */
  function Format(d: Date): (s: string)
    requires ValidDate(d)
    ensures |s| == 10 && s[2] == '-' && s[5] == '-'
  {
    Pad2(d.month) + "-" + Pad2(d.day) + "-" + Pad2(d.year / 100) + Pad2(d.year % 100)
  }

  /** The shape of MM-DD-YYYY: ten characters, dashes at 2 and 5, digits elsewhere. */
  predicate Shaped(s: string) {
    && |s| == 10 && s[2] == '-' && s[5] == '-'
    && IsDigit(s[0]) && IsDigit(s[1]) && IsDigit(s[3]) && IsDigit(s[4])
    && IsDigit(s[6]) && IsDigit(s[7]) && IsDigit(s[8]) && IsDigit(s[9])
  }

  /** The two-digit number at position `at`. */
  function Num2(s: string, at: nat): (n: nat)
    requires at + 2 <= |s| && IsDigit(s[at]) && IsDigit(s[at + 1])
    ensures n < 100
  {
    DigitValue(s[at]) * 10 + DigitValue(s[at + 1])
  }

  /** strptime(s, "%m-%d-%Y"), strict about the shape: None where Python raises ValueError. */
  function Parse(s: string): (r: Option<Date>)
    ensures r.Some? ==> ValidDate(r.value)
  {
    if !Shaped(s) then None
    else
      var d := Date(Num2(s, 6) * 100 + Num2(s, 8), Num2(s, 0), Num2(s, 3));
      if ValidDate(d) then Some(d) else None
  }

  lemma Pad2OfNum2(s: string, at: nat)
    requires at + 2 <= |s| && IsDigit(s[at]) && IsDigit(s[at + 1])
    ensures Pad2(Num2(s, at)) == s[at..at + 2]
  {
    var n := Num2(s, at);
    assert n / 10 == DigitValue(s[at]) && n % 10 == DigitValue(s[at + 1]);
    DigitCharOfValue(s[at]);
    DigitCharOfValue(s[at + 1]);
  }

  /** Every valid date survives formatting and parsing back. */
  lemma {:induction false} ParseFormat(d: Date)
    requires ValidDate(d)
    ensures Parse(Format(d)) == Some(d)
  {
    var s := Format(d);
    assert s[0..2] == Pad2(d.month) && s[3..5] == Pad2(d.day);
    assert s[6..8] == Pad2(d.year / 100) && s[8..10] == Pad2(d.year % 100);
    assert Shaped(s);
    assert Num2(s, 0) == d.month && Num2(s, 3) == d.day;
    assert Num2(s, 6) == d.year / 100 && Num2(s, 8) == d.year % 100;
  }

  /** A text that parses is already canonical: formatting its date gives it back. */
  lemma {:induction false} FormatParse(s: string)
    requires Parse(s).Some?
    ensures Format(Parse(s).value) == s
  {
    var d := Parse(s).value;
    Pad2OfNum2(s, 0);
    Pad2OfNum2(s, 3);
    Pad2OfNum2(s, 6);
    Pad2OfNum2(s, 8);
    assert d.year / 100 == Num2(s, 6) && d.year % 100 == Num2(s, 8);
    assert s == s[0..2] + "-" + s[3..5] + "-" + s[6..8] + s[8..10];
  }

  /** Normalising a date text (parse, then format) is idempotent and fixes exactly the canonical texts. */
  lemma NormaliseIdempotent(s: string)
    requires Parse(s).Some?
    ensures Parse(Format(Parse(s).value)) == Parse(s)
    ensures Format(Parse(s).value) == s
  {
    FormatParse(s);
  }

  // ---- Chronological order ----

  /** Calendar order: by year, then month, then day (Python's datetime comparison). */
  predicate OnOrBefore(a: Date, b: Date) {
    || a.year < b.year
    || (a.year == b.year && a.month < b.month)
    || (a.year == b.year && a.month == b.month && a.day <= b.day)
  }

  /** Strictly earlier. */
  predicate Before(a: Date, b: Date) {
    OnOrBefore(a, b) && a != b
  }

  lemma OnOrBeforeIsTotalOrder(a: Date, b: Date, c: Date)
    ensures OnOrBefore(a, a)
    ensures OnOrBefore(a, b) || OnOrBefore(b, a)
    ensures OnOrBefore(a, b) && OnOrBefore(b, a) ==> a == b
    ensures OnOrBefore(a, b) && OnOrBefore(b, c) ==> OnOrBefore(a, c)
  {
  }

  function YearLength(y: int): (n: int) {
    if IsLeapYear(y) then 366 else 365
  }

  /** Days in the years 1 .. y-1: the proleptic Gregorian count that datetime.toordinal uses. */
  function DaysBeforeYear(y: int): (n: nat)
    decreases y
  {
    if y <= 1 then 0 else DaysBeforeYear(y - 1) + YearLength(y - 1)
  }

  function DaysBeforeMonth(y: int, m: int): (n: nat)
    requires 1 <= m <= 12
  {
    [0, 31, 59, 90, 120, 151, 181, 212, 243, 273, 304, 334][m - 1]
      + (if m > 2 && IsLeapYear(y) then 1 else 0)
  }

  /** The day number of a date counted from 0001-01-01 (day 1): an independent measure of time. */
  function Ordinal(d: Date): (n: int)
    requires ValidDate(d)
  {
    DaysBeforeYear(d.year) + DaysBeforeMonth(d.year, d.month) + d.day
  }

  lemma MonthsFollowEachOther(y: int, m: int)
    requires 1 <= m <= 12
    ensures m < 12 ==> DaysBeforeMonth(y, m + 1) == DaysBeforeMonth(y, m) + DaysInMonth(y, m)
    ensures m == 12 ==> DaysBeforeMonth(y, m) + DaysInMonth(y, m) == YearLength(y)
  {
  }

  lemma {:induction false} MonthsIncrease(y: int, m1: int, m2: int)
    requires 1 <= m1 < m2 <= 12
    ensures DaysBeforeMonth(y, m1) + DaysInMonth(y, m1) <= DaysBeforeMonth(y, m2)
    decreases m2 - m1
  {
    MonthsFollowEachOther(y, m1);
    if m1 + 1 < m2 {
      MonthsIncrease(y, m1 + 1, m2);
      MonthsFollowEachOther(y, m1 + 1);
    }
  }

  lemma {:induction false} YearsIncrease(y1: int, y2: int)
    requires 1 <= y1 < y2
    ensures DaysBeforeYear(y1) + YearLength(y1) <= DaysBeforeYear(y2)
    decreases y2
  {
    if y1 + 1 < y2 {
      YearsIncrease(y1, y2 - 1);
    }
  }

  lemma DayOfYearBounded(d: Date)
    requires ValidDate(d)
    ensures DaysBeforeMonth(d.year, d.month) + d.day <= YearLength(d.year)
  {
    MonthsFollowEachOther(d.year, d.month);
    if d.month < 12 {
      MonthsIncrease(d.year, d.month, 12);
      MonthsFollowEachOther(d.year, 12);
    }
  }

  /**
    The calendar order is the order of day numbers, which is how pandas compares
    the timestamps it parsed from the date column.
  */
  lemma {:induction false} OnOrBeforeIsOrdinalOrder(a: Date, b: Date)
    requires ValidDate(a) && ValidDate(b)
    ensures OnOrBefore(a, b) <==> Ordinal(a) <= Ordinal(b)
  {
    if a.year != b.year {
      var (x, y) := if a.year < b.year then (a, b) else (b, a);
      YearsIncrease(x.year, y.year);
      DayOfYearBounded(x);
      assert Ordinal(x) < Ordinal(y);
    } else if a.month != b.month {
      var (x, y) := if a.month < b.month then (a, b) else (b, a);
      MonthsIncrease(x.year, x.month, y.month);
      assert Ordinal(x) < Ordinal(y);
    }
  }

  /** Python's comparison of two str values: code point by code point, a proper prefix first. */
  predicate TextBefore(a: string, b: string)
    decreases |a|
  {
    if a == [] then b != []
    else if b == [] then false
    else if a[0] != b[0] then a[0] < b[0]
    else TextBefore(a[1..], b[1..])
  }

  /** Comparing MM-DD-YYYY texts is not chronological, which is why the query parses dates first. */
  lemma TextOrderIsNotChronological()
    ensures Before(Date(2022, 12, 31), Date(2023, 1, 1))
    ensures TextBefore(Format(Date(2023, 1, 1)), Format(Date(2022, 12, 31)))
  {
    assert Format(Date(2023, 1, 1)) == "01-01-2023";
    assert Format(Date(2022, 12, 31)) == "12-31-2022";
  }
}
