/**
 * The Saturday-to-Friday week the widget and the edit dialog both show: walk a
 * calendar back from today to the most recent Saturday, then render it and
 * the six days after it.
 */
module Week {
  import opened Text
  import opened Dates

  /**
   * The todays the model covers: years 1583 to 9998, so that a week around
   * today stays after the Julian-to-Gregorian switch and inside four-digit
   * years.
   */
  predicate InRange(today: Date) {
    Valid(today) && GregorianFirstYear <= today.year <= MaxYear - 1
  }

  /** How many steps back the Saturday search takes from `d`. */
  function DaysSinceSaturday(d: Date): (k: nat)
    requires d.year >= 1
    ensures k < 7
    ensures k == 0 <==> DayOfWeek(d) == SATURDAY
  {
    (DayNumber(d) + 2) % 7
  }

  /** `k` calls of `calendar.add(Calendar.DATE, -1)`. */
  function StepBack(d: Date, k: nat): (r: Date)
    ensures Valid(d) && d.year > MinYear && k <= 6 ==>
      && Valid(r)
      && (r.year == d.year || (r.year == d.year - 1 && r.month == 12 && r.day > 31 - k))
  {
    if k == 0 then d else PrevDay(StepBack(d, k - 1))
  }

  /** `k` calls of `calendar.add(Calendar.DATE, 1)`. */
  function StepForward(d: Date, k: nat): (r: Date)
    ensures Valid(d) && k <= 6 ==>
      && Valid(r)
      && (r.year == d.year || (r.year == d.year + 1 && r.month == 1 && r.day <= k))
  {
    if k == 0 then d else NextDay(StepForward(d, k - 1))
  }

  /** Each step back moves one day back. */
  lemma {:induction false} StepBackCounts(d: Date, k: nat)
    requires Valid(d) && d.year > MinYear && k <= 6
    ensures DayNumber(StepBack(d, k)) == DayNumber(d) - k
  {
    if k > 0 {
      StepBackCounts(d, k - 1);
      PrevDayCounts(StepBack(d, k - 1));
    }
  }

  /** Each step forward moves one day on. */
  lemma {:induction false} StepForwardCounts(d: Date, k: nat)
    requires Valid(d) && k <= 6
    ensures DayNumber(StepForward(d, k)) == DayNumber(d) + k
  {
    if k > 0 {
      StepForwardCounts(d, k - 1);
      NextDayCounts(StepForward(d, k - 1));
    }
  }

  /** The latest Saturday on or before `today`. */
  function WeekStart(today: Date): (s: Date)
    requires InRange(today)
    ensures Valid(s) && DayOfWeek(s) == SATURDAY && s.year <= today.year
    ensures DayNumber(today) - 6 <= DayNumber(s) <= DayNumber(today)
  {
    var k := DaysSinceSaturday(today);
    var s := StepBack(today, k);
    StepBackCounts(today, k);
    SubtractRemainder(DayNumber(today));
    assert DaysSinceSaturday(s) == 0;
    s
  }

  /** Going back by the remainder lands on a multiple. */
  lemma SubtractRemainder(n: int)
    ensures (n - (n + 2) % 7 + 2) % 7 == 0
  {
  }

  /** Day `i` (0 = Saturday, 6 = Friday) of the week containing `today`. */
  function WeekDay(today: Date, i: nat): (d: Date)
    requires InRange(today) && i < 7
    ensures Valid(d) && d.year <= MaxYear && DayNumber(d) == DayNumber(WeekStart(today)) + i
  {
    StepForwardCounts(WeekStart(today), i);
    StepForward(WeekStart(today), i)
  }

  /** A calendar from which `n` days (at most a week) render in four-digit years. */
  predicate CanStepForward(start: Date, n: nat) {
    Valid(start) && start.year < MaxYear && n <= 7
  }

  /** The renderings of `start` and the `n - 1` days after it. */
  function RenderDays(start: Date, n: nat): (dates: seq<string>)
    requires CanStepForward(start, n)
    ensures |dates| == n
  {
    if n == 0 then [] else RenderDays(start, n - 1) + [Format(StepForward(start, n - 1))]
  }

  /** Entry `k` of the rendering is day `k` after the start. */
  lemma {:induction false} RenderDaysAt(start: Date, n: nat, k: nat)
    requires CanStepForward(start, n) && k < n
    ensures RenderDays(start, n)[k] == Format(StepForward(start, k))
  {
    if k < n - 1 {
      RenderDaysAt(start, n - 1, k);
    }
  }

  /** The seven `yyyy-MM-dd` strings of the week containing `today`. */
  function WeekDates(today: Date): (dates: seq<string>)
    requires InRange(today)
    ensures |dates| == 7
  {
    RenderDays(WeekStart(today), 7)
  }

  /** Entry `i` of the week is day `i` after Saturday. */
  lemma WeekDatesAt(today: Date, i: nat)
    requires InRange(today) && i < 7
    ensures WeekDates(today)[i] == Format(WeekDay(today, i))
  {
    RenderDaysAt(WeekStart(today), 7, i);
  }

  /** "Find the start date (Saturday)": step a calendar back from today until it reads Saturday. */
  method FindWeekStart(today: Date) returns (calendar: Date)
    requires InRange(today)
    ensures calendar == WeekStart(today)
  {
    calendar := today;
    ghost var steps := 0;
    while DayOfWeek(calendar) != SATURDAY
      invariant 0 <= steps <= DaysSinceSaturday(today)
      invariant calendar == StepBack(today, steps) && Valid(calendar) && calendar != FirstDate
      invariant DaysSinceSaturday(calendar) == DaysSinceSaturday(today) - steps
      decreases DaysSinceSaturday(calendar)
    {
      assert steps < DaysSinceSaturday(today);
      PrevDayTowardsSaturday(calendar);
      calendar := PrevDay(calendar);
      steps := steps + 1;
    }
    WeekStartIsStepBack(today);
  }

  /** The week start is `DaysSinceSaturday(today)` steps back. */
  lemma WeekStartIsStepBack(today: Date)
    requires InRange(today)
    ensures WeekStart(today) == StepBack(today, DaysSinceSaturday(today))
  {
  }

  /**
   * The walk back to Saturday followed by seven renderings, as
   * `onCreate`/`onDataSetChanged` and `generateWeekDates` all do it.
   */
  method ComputeWeekDates(today: Date) returns (dates: seq<string>)
    requires InRange(today)
    ensures dates == WeekDates(today)
  {
    var calendar := FindWeekStart(today);
    ghost var start := calendar;
    dates := [];
    for i := 0 to 7
      invariant CanStepForward(start, 7)
      invariant calendar == StepForward(start, i)
      invariant dates == RenderDays(start, i)
    {
      dates := dates + [Format(calendar)];
      calendar := NextDay(calendar);
    }
  }

  /** Remainders mod 7 step down with the number they belong to. */
  lemma ModDecrement(n: int)
    requires (n + 2) % 7 != 0
    ensures (n + 1) % 7 == (n + 2) % 7 - 1
  {
  }

  /** One step back brings a non-Saturday one day closer to Saturday. */
  lemma PrevDayTowardsSaturday(d: Date)
    requires Valid(d) && d != FirstDate && DaysSinceSaturday(d) != 0
    ensures Valid(PrevDay(d)) && DaysSinceSaturday(PrevDay(d)) == DaysSinceSaturday(d) - 1
  {
    PrevDayCounts(d);
    ModDecrement(DayNumber(d));
  }

  /** Two numbers with the same remainder mod 7 less than 7 apart are equal. */
  lemma CongruentBelow(s: int, d: int, t: int)
    requires (s + 2) % 7 == 0 && (d + 2) % 7 == 0
    requires t - 6 <= s && d <= t
    ensures d <= s
  {
  }

  /** Six days after a Saturday is a Friday. */
  lemma SixDaysAfterSaturday(s: Date, f: Date)
    requires Valid(s) && Valid(f) && DayOfWeek(s) == SATURDAY
    requires DayNumber(f) == DayNumber(s) + 6
    ensures DayOfWeek(f) == FRIDAY
  {
    var n := DayNumber(s);
    assert (n + 1) % 7 + 1 == SATURDAY;
    assert (n + 6 + 1) % 7 + 1 == FRIDAY;
  }

  /** The walk stops at the most recent Saturday: no later Saturday lies on or before today. */
  lemma WeekStartIsLatestSaturday(today: Date, d: Date)
    requires InRange(today) && Valid(d)
    requires DayOfWeek(d) == SATURDAY && DayNumber(d) <= DayNumber(today)
    ensures DayNumber(d) <= DayNumber(WeekStart(today))
  {
    var s := WeekStart(today);
    assert DaysSinceSaturday(d) == 0 && DaysSinceSaturday(s) == 0;
    CongruentBelow(DayNumber(s), DayNumber(d), DayNumber(today));
  }

  /** When today is a Saturday the walk takes no step. */
  lemma SaturdayStartsItsOwnWeek(today: Date)
    requires InRange(today) && DayOfWeek(today) == SATURDAY
    ensures WeekStart(today) == today
  {
  }

  /** Days of the week are in chronological order. */
  lemma {:induction false} WeekDaysAscend(today: Date, i: nat, j: nat)
    requires InRange(today) && i < j < 7
    ensures Before(WeekDay(today, i), WeekDay(today, j))
    decreases j
  {
    if j > i + 1 {
      WeekDaysAscend(today, i, j - 1);
    }
  }

  /** The week's strings sort in day order, so they are pairwise distinct. */
  lemma WeekDatesOrdered(today: Date, i: nat, j: nat)
    requires InRange(today) && i < 7 && j < 7
    ensures LexLess(WeekDates(today)[i], WeekDates(today)[j]) <==> i < j
    ensures WeekDates(today)[i] == WeekDates(today)[j] <==> i == j
  {
    WeekDatesAt(today, i);
    WeekDatesAt(today, j);
    FormatOrder(WeekDay(today, i), WeekDay(today, j));
    if i < j {
      WeekDaysAscend(today, i, j);
    } else if j < i {
      WeekDaysAscend(today, j, i);
    }
    if i != j {
      LexLessIrreflexive(WeekDates(today)[i]);
      FormatOrder(WeekDay(today, j), WeekDay(today, i));
    }
  }

  /** The fetch range `dates.first()`..`dates.last()` runs from a Saturday to the Friday six days later. */
  lemma FetchRangeIsSaturdayToFriday(today: Date)
    requires InRange(today)
    ensures WeekDates(today)[0] == Format(WeekStart(today)) && DayOfWeek(WeekStart(today)) == SATURDAY
    ensures WeekDates(today)[6] == Format(WeekDay(today, 6)) && DayOfWeek(WeekDay(today, 6)) == FRIDAY
    ensures DayNumber(WeekDay(today, 6)) == DayNumber(WeekStart(today)) + 6
  {
    WeekDatesAt(today, 0);
    WeekDatesAt(today, 6);
    assert WeekDay(today, 0) == WeekStart(today);
    SixDaysAfterSaturday(WeekStart(today), WeekDay(today, 6));
  }

}
