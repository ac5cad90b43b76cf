/**
 * Calendar dates as the expense hooks use them. A record's date is an ISO
 * calendar day (`YYYY-MM-DD`); `parseISO`, `format(..., 'MMM yyyy')`,
 * `startOfMonth`/`endOfMonth` and `Date.prototype.getTime` only ever compare
 * such days or read their year and month. The model keeps the day as a
 * proleptic Gregorian (year, month, day) and gives it a position on a
 * continuous day count, `DayNumber`, which orders days exactly as their
 * midnight timestamps do.
 */
module Calendar {

  datatype Date = Date(year: int, month: int, day: int)
  {
    /** A day that exists in the proleptic Gregorian calendar. */
    predicate Valid() {
      1 <= month <= 12 && 1 <= day <= DaysInMonth(year, month)
    }

    /** Strictly earlier in (year, month, day) order. */
    predicate Before(other: Date) {
      year < other.year
      || (year == other.year && month < other.month)
      || (year == other.year && month == other.month && day < other.day)
    }
  }

  /** The days a date input or `parseISO` can produce. */
  type CalendarDate = d: Date | d.Valid() witness Date(1970, 1, 1)

  /** A (year, month) bucket, the value behind a "MMM yyyy" label. */
  datatype MonthKey = MonthKey(year: int, month: int)
  {
    /** Strictly earlier in (year, month) order. */
    predicate Before(other: MonthKey) {
      year < other.year || (year == other.year && month < other.month)
    }
  }

  type CalendarMonth = k: MonthKey | 1 <= k.month <= 12 witness MonthKey(1970, 1)

  predicate IsLeapYear(y: int) {
    y % 4 == 0 && (y % 100 != 0 || y % 400 == 0)
  }

  function DaysInYear(y: int): int {
    if IsLeapYear(y) then 366 else 365
  }

  function DaysInMonth(y: int, m: int): int
    requires 1 <= m <= 12
  {
    if m == 2 then (if IsLeapYear(y) then 29 else 28)
    else if m == 4 || m == 6 || m == 9 || m == 11 then 30
    else 31
  }

  /** Days from 1 January of year 0 to 1 January of year `y`. */
  function DaysBeforeYear(y: int): int {
    365 * y + (y + 3) / 4 - (y + 99) / 100 + (y + 399) / 400
  }

  /** Days from 1 January to the first day of month `m` of year `y`. */
  function DaysBeforeMonth(y: int, m: int): int
    requires 1 <= m <= 12
  {
    var leap := if m > 2 && IsLeapYear(y) then 1 else 0;
    leap + (match m
      case 1 => 0    case 2 => 31   case 3 => 59   case 4 => 90
      case 5 => 120  case 6 => 151  case 7 => 181  case 8 => 212
      case 9 => 243  case 10 => 273 case 11 => 304 case _ => 334)
  }

  /**
   * The day's position on a continuous count of days. The timestamp
   * `getTime()` of the day's midnight is this number times 86 400 000 plus a
   * fixed offset, so the two order days identically.
   */
  function DayNumber(d: CalendarDate): int {
    DaysBeforeYear(d.year) + DaysBeforeMonth(d.year, d.month) + d.day - 1
  }

  /** `format(parseISO(date), 'MMM yyyy')`: the month bucket of a day. */
  function MonthOf(d: CalendarDate): CalendarMonth {
    MonthKey(d.year, d.month)
  }

  /** `startOfMonth`: the first day of the bucket. */
  function FirstDay(k: CalendarMonth): CalendarDate {
    Date(k.year, k.month, 1)
  }

  /** `endOfMonth`: the last day of the bucket. */
  function LastDay(k: CalendarMonth): CalendarDate {
    Date(k.year, k.month, DaysInMonth(k.year, k.month))
  }

  /** `new Date("MMM yyyy").getTime()`, up to scale: the bucket's first day. */
  function MonthRank(k: CalendarMonth): int {
    DayNumber(FirstDay(k))
  }

  lemma YearLength(y: int)
    ensures DaysBeforeYear(y + 1) == DaysBeforeYear(y) + DaysInYear(y)
  {
    MultiplesOf4(y);
    MultiplesOf100(y);
    MultiplesOf400(y);
  }

  /** Counting multiples: one more year in the range adds one exactly when `y` is a multiple. */
  lemma MultiplesOf4(y: int)
    ensures (y + 4) / 4 == (y + 3) / 4 + (if y % 4 == 0 then 1 else 0)
  {
    assert y + 3 == 4 * ((y + 3) / 4) + (y + 3) % 4;
  }

  lemma MultiplesOf100(y: int)
    ensures (y + 100) / 100 == (y + 99) / 100 + (if y % 100 == 0 then 1 else 0)
  {
    assert y + 99 == 100 * ((y + 99) / 100) + (y + 99) % 100;
  }

  lemma MultiplesOf400(y: int)
    ensures (y + 400) / 400 == (y + 399) / 400 + (if y % 400 == 0 then 1 else 0)
  {
    assert y + 399 == 400 * ((y + 399) / 400) + (y + 399) % 400;
  }

  lemma {:induction false} YearsAscend(a: int, b: int)
    requires a < b
    ensures DaysBeforeYear(a) + DaysInYear(a) <= DaysBeforeYear(b)
    decreases b - a
  {
    YearLength(a);
    if a + 1 < b {
      YearsAscend(a + 1, b);
    }
  }

  lemma MonthsAscend(y: int, m1: int, m2: int)
    requires 1 <= m1 < m2 <= 12
    ensures DaysBeforeMonth(y, m1) + DaysInMonth(y, m1) <= DaysBeforeMonth(y, m2)
  {
  }

  lemma MonthFitsYear(y: int, m: int)
    requires 1 <= m <= 12
    ensures DaysBeforeMonth(y, m) + DaysInMonth(y, m) <= DaysInYear(y)
  {
  }

  /** An earlier calendar day has a smaller day number. */
  lemma BeforeMeansEarlier(a: CalendarDate, b: CalendarDate)
    requires a.Before(b)
    ensures DayNumber(a) < DayNumber(b)
  {
    MonthFitsYear(a.year, a.month);
    if a.year < b.year {
      YearsAscend(a.year, b.year);
    } else if a.month < b.month {
      MonthsAscend(a.year, a.month, b.month);
    }
  }

  /**
   * Comparing timestamps is comparing calendar days: this is what makes
   * every `getTime()` comparator in the source a calendar comparison.
   */
  lemma DayNumberOrder(a: CalendarDate, b: CalendarDate)
    ensures DayNumber(a) < DayNumber(b) <==> a.Before(b)
    ensures DayNumber(a) == DayNumber(b) <==> a == b
  {
    if a.Before(b) {
      BeforeMeansEarlier(a, b);
    } else if b.Before(a) {
      BeforeMeansEarlier(b, a);
    }
  }

  /**
   * Month labels sort by the instant of their first day, which is
   * chronological (year, month) order and not the order of the label text.
   */
  lemma MonthRankOrder(a: CalendarMonth, b: CalendarMonth)
    ensures MonthRank(a) < MonthRank(b) <==> a.Before(b)
    ensures MonthRank(a) == MonthRank(b) <==> a == b
  {
    DayNumberOrder(FirstDay(a), FirstDay(b));
  }

  /**
   * `startOfMonth(now) <= day <= endOfMonth(now)` holds exactly for the days
   * of the same calendar month, both ends included.
   */
  lemma WithinMonthBounds(d: CalendarDate, k: CalendarMonth)
    ensures DayNumber(FirstDay(k)) <= DayNumber(d) <= DayNumber(LastDay(k)) <==> MonthOf(d) == k
  {
    DayNumberOrder(FirstDay(k), d);
    DayNumberOrder(d, LastDay(k));
  }

  /** Dec 2023, Jan 2024, Feb 2024 and Jan 2025 in that order, the two Januaries apart. */
  lemma MonthLabelsChronological()
    ensures MonthRank(MonthKey(2023, 12)) < MonthRank(MonthKey(2024, 1))
    ensures MonthRank(MonthKey(2024, 1)) < MonthRank(MonthKey(2024, 2))
    ensures MonthRank(MonthKey(2024, 2)) < MonthRank(MonthKey(2025, 1))
  {
  }
}
