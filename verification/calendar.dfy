/** Calendar dates and the month arithmetic of JavaScript's `Date.prototype.setMonth`.

    A date is a proleptic-Gregorian calendar triple; the time of day and the time
    zone are not modelled. `setMonth(getMonth() + n)` keeps the day of the month and
    moves the (year, month) pair by `n` months; when that day does not exist in the
    target month, the surplus days roll over into the following month, so
    31 January plus one month is 3 March (2 March in a leap year). */
module Calendar {

  datatype Date = Date(year: int, month: int, day: int)

  predicate IsLeapYear(year: int) {
    year % 4 == 0 && (year % 100 != 0 || year % 400 == 0)
  }

  function DaysInMonth(year: int, month: int): (n: int)
    requires 1 <= month <= 12
    ensures 28 <= n <= 31
    ensures n < 30 <==> month == 2
  {
    if month == 2 then (if IsLeapYear(year) then 29 else 28)
    else if month == 4 || month == 6 || month == 9 || month == 11 then 30
    else 31
  }

  /** A date that names a real calendar day (what `Joi.date()` accepts and what a
      `Date` object holds). */
  predicate ValidDate(d: Date) {
    1 <= d.month <= 12 && 1 <= d.day <= DaysInMonth(d.year, d.month)
  }

  /** Months elapsed since January of year 0. */
  function MonthIndex(d: Date): int {
    d.year * 12 + (d.month - 1)
  }

  /** Chronological order on dates. */
  predicate Before(a: Date, b: Date) {
    a.year < b.year ||
    (a.year == b.year && (a.month < b.month || (a.month == b.month && a.day < b.day)))
  }

  predicate AtOrBefore(a: Date, b: Date) {
    a == b || Before(a, b)
  }

  /** The number of days of the month with the given month index. */
  function MonthLength(m: int): (n: int)
    ensures 28 <= n <= 31
  {
    DaysInMonth(m / 12, m % 12 + 1)
  }

  /** The first day of the month with the given month index, moved forward by
      `day - 1` days where `day` may exceed that month's length by less than a month. */
  function DayOfMonthIndex(m: int, day: int): (r: Date)
    requires 1 <= day <= 31
    ensures ValidDate(r)
    ensures day <= MonthLength(m) <==> MonthIndex(r) == m
    ensures day <= MonthLength(m) ==> r.day == day
    ensures day > MonthLength(m) ==> MonthIndex(r) == m + 1 && r.day == day - MonthLength(m)
  {
    var dim := MonthLength(m);
    if day <= dim then Date(m / 12, m % 12 + 1, day)
    else Date((m + 1) / 12, (m + 1) % 12 + 1, day - dim)
  }

  /** `setMonth(getMonth() + n)` on a date: the day of the month is kept when the
      target month has it; otherwise the days beyond the target month's length spill
      into the month after it. */
  function AddMonths(d: Date, n: int): (r: Date)
    requires ValidDate(d)
    ensures ValidDate(r)
    ensures d.day <= MonthLength(MonthIndex(d) + n) <==> MonthIndex(r) == MonthIndex(d) + n
    ensures d.day <= MonthLength(MonthIndex(d) + n) ==> r.day == d.day
    ensures d.day > MonthLength(MonthIndex(d) + n) ==>
      MonthIndex(r) == MonthIndex(d) + n + 1 && r.day == d.day - MonthLength(MonthIndex(d) + n)
    ensures MonthIndex(r) == MonthIndex(d) + n + 1 ==> r.day <= 3
    ensures d.day <= 28 ==> MonthIndex(r) == MonthIndex(d) + n && r.day == d.day
  {
    DayOfMonthIndex(MonthIndex(d) + n, d.day)
  }

  /** Days from 1 March of year 0 to 1 March of year `y` (the calendar `DaysSinceEpoch`
      counts in, shifted so that a leap day ends a year). */
  function MarchDays(y: int): int {
    var era := y / 400;
    var yoe := y - era * 400;
    era * 146097 + yoe * 365 + yoe / 4 - yoe / 100
  }

  /** Days from 1 March to the first of month `m` within a March-based year. */
  function MarchOffset(m: int): int
    requires 1 <= m <= 12
  {
    (153 * ((m + 9) % 12) + 2) / 5
  }

  /** Days from 1 January 1970 to the given date (proleptic Gregorian calendar),
      counted in years that start on 1 March. */
  function DaysSinceEpoch(d: Date): int
    requires ValidDate(d)
  {
    var y := if d.month <= 2 then d.year - 1 else d.year;
    MarchDays(y) + MarchOffset(d.month) + d.day - 1 - 719468
  }

  /** A JavaScript time value lies within 8.64e15 ms, that is 10^8 days, of the epoch;
      a date further away is an Invalid Date. */
  const MaxEpochDays := 100_000_000

  /** A day a `Date` object can hold. The last day, 13 September 275760, is held only at
      its first instant; it is counted out, as the time of day is not modelled. */
  predicate InDateRange(d: Date) {
    ValidDate(d) && -MaxEpochDays <= DaysSinceEpoch(d) < MaxEpochDays
  }

  /** JavaScript's ToIntegerOrInfinity on a finite number: truncation toward zero. */
  function Truncate(x: real): (k: int)
    ensures x >= 0.0 ==> k == x.Floor
    ensures x < 0.0 ==> k == -((-x).Floor)
  {
    if x >= 0.0 then x.Floor else -((-x).Floor)
  }

  /** `date.setMonth(date.getMonth() + x)` for a month count `x` that need not be an
      integer: setMonth truncates its argument. */
  function ShiftMonths(d: Date, x: real): (r: Date)
    requires ValidDate(d)
    ensures ValidDate(r)
  {
    AddMonths(d, Truncate((d.month - 1) as real + x) - (d.month - 1))
  }

  lemma FloorShift(k: int, x: real)
    ensures (k as real + x).Floor == k + x.Floor
  {
    var f := x.Floor;
    assert f as real <= x < f as real + 1.0;
    assert (k + f) as real <= k as real + x < (k + f) as real + 1.0;
  }

  /** For a non-negative month count, the truncation of `getMonth() + x` only drops
      the fractional part of `x`: the shift is by whole months `floor(x)`. */
  lemma ShiftMonthsWholeMonths(d: Date, x: real)
    requires ValidDate(d) && x >= 0.0
    ensures ShiftMonths(d, x) == AddMonths(d, x.Floor)
  {
    FloorShift(d.month - 1, x);
  }

  /** On valid dates, chronological order is the order of (month index, day). */
  lemma BeforeByMonthIndex(a: Date, b: Date)
    requires ValidDate(a) && ValidDate(b)
    ensures Before(a, b) <==>
      MonthIndex(a) < MonthIndex(b) || (MonthIndex(a) == MonthIndex(b) && a.day < b.day)
  {
  }

  /** A valid date is determined by its month index and its day. */
  lemma SameMonthIndexAndDay(a: Date, b: Date)
    requires ValidDate(a) && ValidDate(b)
    requires MonthIndex(a) == MonthIndex(b) && a.day == b.day
    ensures a == b
  {
  }

  lemma AddMonthsZero(d: Date)
    requires ValidDate(d)
    ensures AddMonths(d, 0) == d
  {
    var r := AddMonths(d, 0);
    SameMonthIndexAndDay(r, d);
  }

  /** Shifting by more months always lands strictly later, rollover or not. */
  lemma AddMonthsStrictlyIncreasing(d: Date, a: int, b: int)
    requires ValidDate(d) && a < b
    ensures Before(AddMonths(d, a), AddMonths(d, b))
  {
    var ra, rb := AddMonths(d, a), AddMonths(d, b);
    BeforeByMonthIndex(ra, rb);
  }

  /** A shift by at least one month lands strictly after the date it starts from. */
  lemma AddMonthsMovesForward(d: Date, n: int)
    requires ValidDate(d) && n >= 1
    ensures Before(d, AddMonths(d, n))
  {
    AddMonthsZero(d);
    AddMonthsStrictlyIncreasing(d, 0, n);
  }

  /** When the day of the month exists in every month (day 28 or earlier), successive
      shifts compose: shifting by `a` and then by `b` is shifting by `a + b`. */
  lemma AddMonthsComposeWhenDayFits(d: Date, a: int, b: int)
    requires ValidDate(d) && d.day <= 28
    ensures AddMonths(AddMonths(d, a), b) == AddMonths(d, a + b)
  {
    SameMonthIndexAndDay(AddMonths(AddMonths(d, a), b), AddMonths(d, a + b));
  }

  /** Without that condition shifts do not compose: 31 January 2023 shifted by one
      month twice is 3 April, but shifted by two months at once is 31 March. */
  lemma AddMonthsNotAdditive()
    ensures AddMonths(Date(2023, 1, 31), 1) == Date(2023, 3, 3)
    ensures AddMonths(AddMonths(Date(2023, 1, 31), 1), 1) == Date(2023, 4, 3)
    ensures AddMonths(Date(2023, 1, 31), 2) == Date(2023, 3, 31)
  {
    assert MonthIndex(Date(2023, 1, 31)) == 24276;
    assert 24277 / 12 == 2023 && 24277 % 12 == 1;
    assert 24278 / 12 == 2023 && 24278 % 12 == 2;
    assert !IsLeapYear(2023);
    assert MonthLength(24277) == 28;
    assert MonthLength(24278) == 31;
    SameMonthIndexAndDay(AddMonths(Date(2023, 1, 31), 1), Date(2023, 3, 3));
    SameMonthIndexAndDay(AddMonths(Date(2023, 3, 3), 1), Date(2023, 4, 3));
    SameMonthIndexAndDay(AddMonths(Date(2023, 1, 31), 2), Date(2023, 3, 31));
  }

  /** `setMonth` can leave the range of `Date`: four million months after 15 January
      2024 is out of it, twelve months after it is not. */
  lemma FarShiftLeavesDateRange()
    ensures InDateRange(AddMonths(Date(2024, 1, 15), 12))
    ensures !InDateRange(AddMonths(Date(2024, 1, 15), 4_000_000))
  {
    assert AddMonths(Date(2024, 1, 15), 12) == Date(2025, 1, 15);
    assert AddMonths(Date(2024, 1, 15), 4_000_000) == Date(335357, 5, 15);
  }

  /** The day after `d`. */
  function NextDay(d: Date): (r: Date)
    requires ValidDate(d)
    ensures ValidDate(r) && Before(d, r)
  {
    if d.day < DaysInMonth(d.year, d.month) then d.(day := d.day + 1)
    else if d.month < 12 then Date(d.year, d.month + 1, 1)
    else Date(d.year + 1, 1, 1)
  }

  /** A year counted from the start of its 400-year era is a leap year exactly when the
      year itself is. */
  lemma LeapYearInEra(era: int, yoe: int)
    requires 0 <= yoe < 400
    ensures IsLeapYear(400 * era + yoe) == IsLeapYear(yoe)
  {
    ShiftRemainder4(100 * era, yoe);
    ShiftRemainder100(4 * era, yoe);
    ShiftRemainder400(era, yoe);
  }

  lemma ShiftRemainder4(n: int, r: int)
    ensures (4 * n + r) % 4 == r % 4
  {
  }

  lemma ShiftRemainder100(n: int, r: int)
    ensures (100 * n + r) % 100 == r % 100
  {
  }

  lemma ShiftRemainder400(n: int, r: int)
    ensures (400 * n + r) % 400 == r % 400
  {
  }

  /** Within one era, a year is one day longer when it is a leap year. */
  lemma EraYearLength(yoe: int)
    requires 0 <= yoe < 399
    ensures ((yoe + 1) / 4 - (yoe + 1) / 100) - (yoe / 4 - yoe / 100) == if IsLeapYear(yoe + 1) then 1 else 0
  {
  }

  lemma MarchYearLength(y: int)
    ensures MarchDays(y + 1) - MarchDays(y) == if IsLeapYear(y + 1) then 366 else 365
  {
    var era := y / 400;
    var yoe := y - era * 400;
    if yoe == 399 {
      assert y + 1 == 400 * (era + 1);
      assert (y + 1) / 400 == era + 1;
      assert IsLeapYear(y + 1);
    } else {
      assert (y + 1) / 400 == era;
      EraYearLength(yoe);
      LeapYearInEra(era, yoe + 1);
    }
  }

  lemma MarchOffsets()
    ensures MarchOffset(3) == 0 && MarchOffset(4) == 31 && MarchOffset(5) == 61
    ensures MarchOffset(6) == 92 && MarchOffset(7) == 122 && MarchOffset(8) == 153
    ensures MarchOffset(9) == 184 && MarchOffset(10) == 214 && MarchOffset(11) == 245
    ensures MarchOffset(12) == 275 && MarchOffset(1) == 306 && MarchOffset(2) == 337
  {
  }

  /** Each day counts one more than the day before it, across months and years and
      through 29 February. */
  lemma DaysSinceEpochNextDay(d: Date)
    requires ValidDate(d)
    ensures DaysSinceEpoch(NextDay(d)) == DaysSinceEpoch(d) + 1
  {
    var e := NextDay(d);
    if d.day < DaysInMonth(d.year, d.month) {
    } else if d.month == 2 {
      MarchYearLength(d.year - 1);
      MarchOffsets();
    } else {
      MarchOffsets();
      assert (if e.month <= 2 then e.year - 1 else e.year) == (if d.month <= 2 then d.year - 1 else d.year);
      assert MarchOffset(e.month) == MarchOffset(d.month) + DaysInMonth(d.year, d.month);
    }
  }

  /** The epoch is day 0, and the Date range ends 10^8 days either side of it: on 20
      April 271822 BC (year -271821) and on 13 September 275760, the first day out. */
  lemma DateRangeBounds()
    ensures DaysSinceEpoch(Date(1970, 1, 1)) == 0
    ensures DaysSinceEpoch(Date(-271821, 4, 20)) == -MaxEpochDays
    ensures DaysSinceEpoch(Date(275760, 9, 13)) == MaxEpochDays
    ensures InDateRange(Date(-271821, 4, 20)) && !InDateRange(Date(-271821, 4, 19))
    ensures InDateRange(Date(275760, 9, 12)) && !InDateRange(Date(275760, 9, 13))
  {
    assert MarchDays(-271821) == -99_280_582 by {
      assert -271821 / 400 == -680;
    }
    assert MarchDays(275760) == 100_719_272 by {
      assert 275760 / 400 == 689;
    }
    assert DaysSinceEpoch(Date(-271821, 4, 19)) == -MaxEpochDays - 1;
    assert DaysSinceEpoch(Date(275760, 9, 12)) == MaxEpochDays - 1;
  }
}
