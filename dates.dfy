/**
 * Calendar dates as `java.util.Calendar` steps through them (one day back or
 * forward at a time) and as `SimpleDateFormat("yyyy-MM-dd")` renders them.
 * The calendar is the proleptic Gregorian one; days are numbered from
 * 0001-01-01 (day 0, a Monday) so that the day of the week is a remainder.
 */
module Dates {
  import opened Text

  datatype Date = Date(year: int, month: int, day: int)

  /** The first year of the calendar, and the last whose `yyyy` rendering has four digits. */
  const MinYear := 1
  const MaxYear := 9999
  const FirstDate := Date(MinYear, 1, 1)
  /**
   * `GregorianCalendar` counts Julian dates up to 1582-10-04 and Gregorian
   * ones from 1582-10-15; from this year on every date it handles is a
   * Gregorian one, as here.
   */
  const GregorianFirstYear := 1583

  /** `Calendar.DAY_OF_WEEK` values. */
  const SUNDAY := 1
  const FRIDAY := 6
  const SATURDAY := 7

  predicate IsLeapYear(y: int) {
    y % 4 == 0 && (y % 100 != 0 || y % 400 == 0)
  }

  function YearLength(y: int): int {
    if IsLeapYear(y) then 366 else 365
  }

  function DaysInMonth(y: int, m: int): int {
    if m == 2 then (if IsLeapYear(y) then 29 else 28)
    else if m == 4 || m == 6 || m == 9 || m == 11 then 30
    else 31
  }

  predicate Valid(d: Date) {
    MinYear <= d.year && 1 <= d.month <= 12 && 1 <= d.day <= DaysInMonth(d.year, d.month)
  }

  /** Chronological order on dates: by year, then month, then day. */
  predicate Before(a: Date, b: Date) {
    a.year < b.year || (a.year == b.year && (a.month < b.month || (a.month == b.month && a.day < b.day)))
  }

  /** Days from 0001-01-01 to the first day of year `y`. */
  function DaysBeforeYear(y: int): nat
    requires y >= 1
  {
    if y == 1 then 0 else DaysBeforeYear(y - 1) + YearLength(y - 1)
  }

  /** Days of year `y` before the first day of month `m`. */
  function DaysBeforeMonth(y: int, m: int): nat {
    if m <= 1 then 0 else DaysBeforeMonth(y, m - 1) + DaysInMonth(y, m - 1)
  }

  /** The eleven months before December fill all but 31 days of the year. */
  lemma DaysBeforeDecember(y: int)
    ensures DaysBeforeMonth(y, 12) + 31 == YearLength(y)
  {
    var leap := if IsLeapYear(y) then 1 else 0;
    assert DaysBeforeMonth(y, 2) == 31;
    assert DaysBeforeMonth(y, 3) == 59 + leap;
    assert DaysBeforeMonth(y, 4) == 90 + leap;
    assert DaysBeforeMonth(y, 5) == 120 + leap;
    assert DaysBeforeMonth(y, 6) == 151 + leap;
    assert DaysBeforeMonth(y, 7) == 181 + leap;
    assert DaysBeforeMonth(y, 8) == 212 + leap;
    assert DaysBeforeMonth(y, 9) == 243 + leap;
    assert DaysBeforeMonth(y, 10) == 273 + leap;
    assert DaysBeforeMonth(y, 11) == 304 + leap;
  }

  /** Days since 0001-01-01. */
  function DayNumber(d: Date): int
    requires d.year >= 1
  {
    DaysBeforeYear(d.year) + DaysBeforeMonth(d.year, d.month) + d.day - 1
  }

  /** `Calendar.get(Calendar.DAY_OF_WEEK)`: 1 for Sunday through 7 for Saturday. */
  function DayOfWeek(d: Date): (w: int)
    requires d.year >= 1
    ensures SUNDAY <= w <= SATURDAY
  {
    (DayNumber(d) + 1) % 7 + 1
  }

  /** `calendar.add(Calendar.DATE, 1)`: the next day. */
  function NextDay(d: Date): (r: Date)
    ensures Valid(d) ==> Valid(r) && Before(d, r)
    ensures r.year == d.year || (r.year == d.year + 1 && r.month == 1 && r.day == 1)
  {
    if d.day < DaysInMonth(d.year, d.month) then Date(d.year, d.month, d.day + 1)
    else if d.month < 12 then Date(d.year, d.month + 1, 1)
    else Date(d.year + 1, 1, 1)
  }

  /** The next day is one later in the day count. */
  lemma NextDayCounts(d: Date)
    requires Valid(d)
    ensures DayNumber(NextDay(d)) == DayNumber(d) + 1
  {
    if d.day == DaysInMonth(d.year, d.month) && d.month == 12 {
      DaysBeforeDecember(d.year);
    }
  }

  /** `calendar.add(Calendar.DATE, -1)`: the previous day, which `NextDay` undoes. */
  function PrevDay(d: Date): (r: Date)
    ensures Valid(d) && d != FirstDate ==> Valid(r) && NextDay(r) == d
    ensures r.year == d.year || (r.year == d.year - 1 && r.month == 12 && r.day == 31)
  {
    if d.day > 1 then Date(d.year, d.month, d.day - 1)
    else if d.month > 1 then Date(d.year, d.month - 1, DaysInMonth(d.year, d.month - 1))
    else Date(d.year - 1, 12, 31)
  }

  /** The previous day is one earlier in the day count. */
  lemma PrevDayCounts(d: Date)
    requires Valid(d) && d != FirstDate
    ensures DayNumber(PrevDay(d)) == DayNumber(d) - 1
  {
    NextDayCounts(PrevDay(d));
  }

  function Pow10(w: nat): nat {
    if w == 0 then 1 else 10 * Pow10(w - 1)
  }

  /** The last `width` decimal digits of `n`, zero-padded on the left. */
  function Pad(n: nat, width: nat): (s: string)
    ensures |s| == width
    ensures forall i :: 0 <= i < |s| ==> IsDigit(s[i])
  {
    if width == 0 then [] else Pad(n / 10, width - 1) + [DigitChar(n % 10)]
  }

  /** Fixed-width padding turns numeric order into lexicographic order. */
  lemma {:induction false} PadOrder(n: nat, m: nat, width: nat)
    requires n < Pow10(width) && m < Pow10(width)
    ensures LexLess(Pad(n, width), Pad(m, width)) <==> n < m
    ensures Pad(n, width) == Pad(m, width) <==> n == m
    decreases width
  {
    if width > 0 {
      var n', m' := n / 10, m / 10;
      PadOrder(n', m', width - 1);
      PadOrder(m', n', width - 1);
      LexLessIrreflexive(Pad(n', width - 1));
      var cn, cm := DigitChar(n % 10), DigitChar(m % 10);
      LexLessConcat(Pad(n', width - 1), [cn], Pad(m', width - 1), [cm]);
      assert LexLess([cn], [cm]) <==> n % 10 < m % 10;
      assert n < m <==> n' < m' || (n' == m' && n % 10 < m % 10);
      if Pad(n, width) == Pad(m, width) {
        assert Pad(n', width - 1) == Pad(n, width)[..width - 1] == Pad(m, width)[..width - 1] == Pad(m', width - 1);
        assert cn == Pad(n, width)[width - 1] == cm;
        LexLessIrreflexive(Pad(n, width));
      }
    }
  }

  /** `SimpleDateFormat("yyyy-MM-dd").format`: four-digit year, two-digit month and day. */
  function Format(d: Date): (s: string)
    requires Valid(d) && d.year <= MaxYear
    ensures |s| == 10 && s[4] == '-' && s[7] == '-'
  {
    Pad(d.year, 4) + ("-" + (Pad(d.month, 2) + ("-" + Pad(d.day, 2))))
  }

  /** Rendered dates sort as strings exactly as they do chronologically. */
  lemma FormatOrder(a: Date, b: Date)
    requires Valid(a) && Valid(b) && a.year <= MaxYear && b.year <= MaxYear
    ensures LexLess(Format(a), Format(b)) <==> Before(a, b)
  {
    assert Pow10(2) == 100 && Pow10(4) == 10000;
    PadOrder(a.year, b.year, 4);
    PadOrder(a.month, b.month, 2);
    PadOrder(a.day, b.day, 2);
    var da, db := "-" + Pad(a.day, 2), "-" + Pad(b.day, 2);
    var ma, mb := Pad(a.month, 2) + da, Pad(b.month, 2) + db;
    LexLessConcat("-", Pad(a.day, 2), "-", Pad(b.day, 2));
    LexLessConcat(Pad(a.month, 2), da, Pad(b.month, 2), db);
    LexLessConcat("-", ma, "-", mb);
    LexLessConcat(Pad(a.year, 4), "-" + ma, Pad(b.year, 4), "-" + mb);
    assert Pad(a.month, 2) + da == Pad(b.month, 2) + db <==> a.month == b.month && a.day == b.day by {
      if Pad(a.month, 2) + da == Pad(b.month, 2) + db {
        assert Pad(a.month, 2) == (Pad(a.month, 2) + da)[..2];
        assert Pad(b.month, 2) == (Pad(b.month, 2) + db)[..2];
        assert da == (Pad(a.month, 2) + da)[2..];
        assert db == (Pad(b.month, 2) + db)[2..];
        assert Pad(a.day, 2) == da[1..] && Pad(b.day, 2) == db[1..];
      }
    }
  }

  /** Distinct valid dates render to distinct strings. */
  lemma FormatInjective(a: Date, b: Date)
    requires Valid(a) && Valid(b) && a.year <= MaxYear && b.year <= MaxYear
    requires Format(a) == Format(b)
    ensures a == b
  {
    FormatOrder(a, b);
    FormatOrder(b, a);
    LexLessIrreflexive(Format(a));
  }
}
