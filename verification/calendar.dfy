/** Proleptic Gregorian dates as Python's `datetime.date` represents them:
    ordinals counted from 0001-01-01 (ordinal 1, a Monday), `weekday()` with
    Monday as 0, and day arithmetic that moves along the ordinals. The two
    aggregation windows of the widget, "Monday of this week" and "first day of
    this month", are computed here. */
module Calendar {

  datatype Date = Date(year: int, month: int, day: int)

  const MinYear: int := 1
  const MaxYear: int := 9999

  predicate IsLeap(y: int) {
    y % 4 == 0 && (y % 100 != 0 || y % 400 == 0)
  }

  function DaysInMonth(y: int, m: int): (n: int)
    requires 1 <= m <= 12
    ensures 28 <= n <= 31
  {
    if m == 2 then (if IsLeap(y) then 29 else 28)
    else if m == 4 || m == 6 || m == 9 || m == 11 then 30
    else 31
  }

  function DaysInYear(y: int): int {
    if IsLeap(y) then 366 else 365
  }

  /** A value a `date` object can hold. */
  predicate Valid(d: Date) {
    && MinYear <= d.year <= MaxYear
    && 1 <= d.month <= 12
    && 1 <= d.day <= DaysInMonth(d.year, d.month)
  }

  /** Days in the years before `y`: `365 * n + n // 4 - n // 100 + n // 400` with `n = y - 1`. */
  function DaysBeforeYear(y: int): int
    requires y >= 1
  {
    var n := y - 1;
    n * 365 + n / 4 - n / 100 + n / 400
  }

  /** Days in the months of year `y` before month `m`, from the cumulative table. */
  function DaysBeforeMonth(y: int, m: int): int
    requires 1 <= m <= 12
  {
    var table := [0, 0, 31, 59, 90, 120, 151, 181, 212, 243, 273, 304, 334];
    table[m] + (if m > 2 && IsLeap(y) then 1 else 0)
  }

  /** `date.toordinal()`: 0001-01-01 is day 1. */
  function ToOrdinal(d: Date): (n: int)
    requires Valid(d)
    ensures n >= 1
  {
    DaysBeforeYear(d.year) + DaysBeforeMonth(d.year, d.month) + d.day
  }

  /** The weekday of the day with ordinal `n`; ordinal 1 is a Monday. */
  function WeekdayOfOrdinal(n: int): (w: int)
    ensures 0 <= w < 7
    ensures n >= 1 ==> w < n
    ensures (n - 1 - w) % 7 == 0
  {
    (n + 6) % 7
  }

  /** `date.weekday()`: Monday is 0, Sunday is 6. */
  function Weekday(d: Date): (w: int)
    requires Valid(d)
    ensures 0 <= w < 7
    ensures w < ToOrdinal(d)
    ensures (ToOrdinal(d) - 1 - w) % 7 == 0
  {
    WeekdayOfOrdinal(ToOrdinal(d))
  }

  /** The first day of the calendar, 0001-01-01, is a Monday. */
  lemma {:induction false} FirstDayIsMonday()
    ensures Weekday(Date(MinYear, 1, 1)) == 0
  {
  }

  /** One ordinal back is one place back in the Monday-to-Sunday cycle. */
  lemma {:induction false} WeekdayOfOrdinalStep(k: int)
    ensures WeekdayOfOrdinal(k - 1) == (WeekdayOfOrdinal(k) + 6) % 7
  {
  }

  /** Each step back by one day moves one place back in the Monday-to-Sunday cycle. */
  lemma {:induction false} WeekdayOfPrevDay(d: Date)
    requires Valid(d) && ToOrdinal(d) > 1
    ensures Weekday(PrevDay(d)) == (Weekday(d) + 6) % 7
  {
    WeekdayOfOrdinalStep(ToOrdinal(d));
  }

  lemma {:induction false} YearStep(y: int)
    requires y >= 2
    ensures DaysBeforeYear(y) == DaysBeforeYear(y - 1) + DaysInYear(y - 1)
  {
    var n := y - 1;
    assert n / 4 - (n - 1) / 4 == (if n % 4 == 0 then 1 else 0);
    assert n / 100 - (n - 1) / 100 == (if n % 100 == 0 then 1 else 0);
    assert n / 400 - (n - 1) / 400 == (if n % 400 == 0 then 1 else 0);
    if n % 100 == 0 {
      assert n == 4 * (25 * (n / 100));
    }
    if n % 400 == 0 {
      assert n == 100 * (4 * (n / 400));
    }
  }

  lemma {:induction false} MonthStep(y: int, m: int)
    requires 2 <= m <= 12
    ensures DaysBeforeMonth(y, m) == DaysBeforeMonth(y, m - 1) + DaysInMonth(y, m - 1)
  {
  }

  /** The calendar day before `d`. */
  function PrevDay(d: Date): (p: Date)
    requires Valid(d)
    requires ToOrdinal(d) > 1
    ensures Valid(p)
    ensures ToOrdinal(p) == ToOrdinal(d) - 1
  {
    if d.day > 1 then
      Date(d.year, d.month, d.day - 1)
    else if d.month > 1 then
      MonthStep(d.year, d.month);
      Date(d.year, d.month - 1, DaysInMonth(d.year, d.month - 1))
    else
      assert d.year > 1;
      YearStep(d.year);
      Date(d.year - 1, 12, 31)
  }

  /** `d - timedelta(days=n)` for a result that stays in range. */
  function MinusDays(d: Date, n: nat): (r: Date)
    requires Valid(d)
    requires n < ToOrdinal(d)
    ensures Valid(r)
    ensures ToOrdinal(r) == ToOrdinal(d) - n
    decreases n
  {
    if n == 0 then d else MinusDays(PrevDay(d), n - 1)
  }

  lemma {:induction false} MondayOffset(k: int, w: int)
    requires w == WeekdayOfOrdinal(k)
    ensures WeekdayOfOrdinal(k - w) == 0
  {
    assert k + 6 == 7 * ((k + 6) / 7) + w;
    assert k - w + 6 == 7 * ((k + 6) / 7);
  }

  /** `today - relativedelta(days=today.weekday())`: the Monday that opens the week of `today`. */
  function WeekStart(today: Date): (monday: Date)
    requires Valid(today)
    ensures Valid(monday)
    ensures Weekday(monday) == 0
    ensures ToOrdinal(monday) <= ToOrdinal(today) <= ToOrdinal(monday) + 6
  {
    var k := ToOrdinal(today);
    var w := Weekday(today);
    var monday := MinusDays(today, w);
    MondayOffset(k, w);
    monday
  }

  /** `today.replace(day=1)`. */
  function MonthStart(today: Date): (first: Date)
    requires Valid(today)
    ensures Valid(first)
    ensures first.year == today.year && first.month == today.month && first.day == 1
    ensures ToOrdinal(first) == ToOrdinal(today) - (today.day - 1)
  {
    Date(today.year, today.month, 1)
  }
}
