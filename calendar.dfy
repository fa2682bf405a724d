/**
 * The part of Go's `time` package the plan relies on, for local dates at
 * midnight: proleptic Gregorian civil dates, their day numbers, the
 * normalisation performed by `time.Date` and `Time.AddDate`, `Weekday`, and
 * the parse result of a `YYYY-MM-DD` field.
 */
module Calendar {
  import opened Wrappers

  datatype Date = Date(year: int, month: int, day: int)

  /** Gregorian leap years. */
  predicate IsLeapYear(y: int) {
    y % 4 == 0 && (y % 100 != 0 || y % 400 == 0)
  }

  /** The length of month `m` of year `y`. */
  function DaysInMonth(y: int, m: int): (r: int)
    requires 1 <= m <= 12
    ensures 28 <= r <= 31
  {
    if m == 2 then (if IsLeapYear(y) then 29 else 28)
    else if m == 4 || m == 6 || m == 9 || m == 11 then 30
    else 31
  }

  /** A real calendar day. */
  predicate ValidDate(d: Date) {
    1 <= d.month <= 12 && 1 <= d.day <= DaysInMonth(d.year, d.month)
  }

  /** Days from 0001-01-01 to January 1st of year `y`. */
  function DaysBeforeYear(y: int): int {
    var p := y - 1;
    365 * p + p / 4 - p / 100 + p / 400
  }

  /** Days from January 1st of year `y` to the first of month `m`. */
  function DaysBeforeMonth(y: int, m: int): int
    requires 1 <= m <= 12
  {
    var common :=
      if m == 1 then 0 else if m == 2 then 31 else if m == 3 then 59
      else if m == 4 then 90 else if m == 5 then 120 else if m == 6 then 151
      else if m == 7 then 181 else if m == 8 then 212 else if m == 9 then 243
      else if m == 10 then 273 else if m == 11 then 304 else 334;
    if m > 2 && IsLeapYear(y) then common + 1 else common
  }

  /** Day number of a date: 0 is 0001-01-01, a Monday. */
  function Ord(d: Date): int
    requires 1 <= d.month <= 12
  {
    DaysBeforeYear(d.year) + DaysBeforeMonth(d.year, d.month) + d.day - 1
  }

  /** Floor division by 4, 100 and 400 grows by one exactly at multiples. */
  lemma DivisionSteps(x: int)
    ensures (x + 1) / 4 == x / 4 + (if (x + 1) % 4 == 0 then 1 else 0)
    ensures (x + 1) / 100 == x / 100 + (if (x + 1) % 100 == 0 then 1 else 0)
    ensures (x + 1) / 400 == x / 400 + (if (x + 1) % 400 == 0 then 1 else 0)
  {
  }

  /** A year has 366 days when it is a leap year and 365 otherwise. */
  lemma YearLength(y: int)
    ensures DaysBeforeYear(y + 1) == DaysBeforeYear(y) + (if IsLeapYear(y) then 366 else 365)
  {
    DivisionSteps(y - 1);
    MultiplesOf400(y);
  }

  /** A multiple of 400 is one of 100, and a multiple of 100 one of 4. */
  lemma MultiplesOf400(y: int)
    ensures y % 400 == 0 ==> y % 100 == 0
    ensures y % 100 == 0 ==> y % 4 == 0
  {
    if y % 400 == 0 {
      var k := 4 * (y / 400) - y / 100;
      assert y % 100 == 100 * k;
    }
    if y % 100 == 0 {
      var k := 25 * (y / 100) - y / 4;
      assert y % 4 == 4 * k;
    }
  }

  /** The first day of the month after that of `d`. */
  function FirstOfNextMonth(d: Date): Date {
    if d.month == 12 then Date(d.year + 1, 1, 1) else Date(d.year, d.month + 1, 1)
  }

  /** The last day of the month before that of `d`. */
  function LastOfPreviousMonth(d: Date): Date
    requires 1 <= d.month <= 12
  {
    if d.month == 1 then Date(d.year - 1, 12, 31)
    else Date(d.year, d.month - 1, DaysInMonth(d.year, d.month - 1))
  }

  /** The first of the next month is the day after the last of this month. */
  lemma NextMonthOrd(d: Date)
    requires 1 <= d.month <= 12
    ensures ValidDate(FirstOfNextMonth(d))
    ensures Ord(FirstOfNextMonth(d)) == Ord(Date(d.year, d.month, DaysInMonth(d.year, d.month))) + 1
  {
    if d.month == 12 {
      YearLength(d.year);
    }
  }

  /** Within a month, day numbers differ as the days of the month do. */
  lemma OrdWithinMonth(d: Date, day: int)
    requires 1 <= d.month <= 12
    ensures Ord(Date(d.year, d.month, day)) == Ord(d) - d.day + day
  {
  }

  /**
   * The date `n` days after (or, for negative `n`, before) `d`, found one
   * month at a time. It is a valid date exactly `n` day numbers away.
   */
  function AddDays(d: Date, n: int): (r: Date)
    requires ValidDate(d)
    ensures ValidDate(r)
    ensures Ord(r) == Ord(d) + n
    decreases if n < 0 then -n else n
  {
    var dim := DaysInMonth(d.year, d.month);
    if 1 <= d.day + n <= dim then
      OrdWithinMonth(d, d.day + n);
      Date(d.year, d.month, d.day + n)
    else if d.day + n > dim then
      NextMonthOrd(d);
      OrdWithinMonth(d, dim);
      AddDays(FirstOfNextMonth(d), n - (dim - d.day + 1))
    else
      var prev := LastOfPreviousMonth(d);
      NextMonthOrd(prev);
      OrdWithinMonth(prev, DaysInMonth(prev.year, prev.month));
      OrdWithinMonth(d, 1);
      assert FirstOfNextMonth(prev) == Date(d.year, d.month, 1);
      AddDays(prev, n + d.day)
  }

  /**
   * Go's `time.Date(year, month, day)`: the month is brought into 1..12 by
   * moving whole years (floor division), then the day is counted from the
   * first of that month, so out-of-range days roll into neighbouring months.
   */
  function GoDate(year: int, month: int, day: int): (r: Date)
    ensures ValidDate(r)
    ensures 1 <= month <= 12 && 1 <= day <= DaysInMonth(year, month) ==> r == Date(year, month, day)
  {
    AddDays(Date(year + (month - 1) / 12, (month - 1) % 12 + 1, 1), day - 1)
  }

  /** Go's `Time.AddDate(years, months, days)`, normalised as `time.Date` does. */
  function AddDate(t: Date, years: int, months: int, days: int): (r: Date)
    requires ValidDate(t)
    ensures ValidDate(r)
    ensures years == 0 && months == 0 ==> Ord(r) == Ord(t) + days
  {
    if years == 0 && months == 0 then
      AddDaysOnly(t, years, months, days);
      GoDate(t.year + years, t.month + months, t.day + days)
    else
      GoDate(t.year + years, t.month + months, t.day + days)
  }

  /** Adding only days moves the day number by that many days. */
  lemma AddDaysOnly(t: Date, years: int, months: int, days: int)
    requires ValidDate(t) && years == 0 && months == 0
    ensures Ord(GoDate(t.year + years, t.month + months, t.day + days)) == Ord(t) + days
  {
    var first := Date(t.year + years + (t.month + months - 1) / 12, (t.month + months - 1) % 12 + 1, 1);
    assert first == Date(t.year, t.month, 1);
    OrdWithinMonth(t, 1);
  }

  /** Months counted from January of year 0: twelve per year. */
  function MonthIndex(d: Date): int {
    d.year * 12 + d.month - 1
  }

  /** The first day of the month with index `idx`. */
  function MonthStart(idx: int): (r: Date)
    ensures ValidDate(r) && r.day == 1 && MonthIndex(r) == idx
  {
    Date(idx / 12, idx % 12 + 1, 1)
  }

  /** The next month starts a month's length after this one. */
  lemma MonthStartStep(idx: int)
    ensures Ord(MonthStart(idx + 1)) == Ord(MonthStart(idx)) + DaysInMonth(MonthStart(idx).year, MonthStart(idx).month)
  {
    var s := MonthStart(idx);
    NextMonthOrd(s);
    assert FirstOfNextMonth(s) == MonthStart(idx + 1);
  }

  /** A later month starts on a later day. */
  lemma {:induction false} MonthStartMonotone(i: int, j: int)
    requires i <= j
    ensures Ord(MonthStart(i)) <= Ord(MonthStart(j))
    decreases j - i
  {
    if i < j {
      MonthStartMonotone(i, j - 1);
      MonthStartStep(j - 1);
      var a, b := Ord(MonthStart(j - 1)), Ord(MonthStart(j));
      assert a < b;
    }
  }

  /** Every day of a month lies between its first day and the next month's first day. */
  lemma DayWithinMonth(d: Date)
    requires ValidDate(d)
    ensures Ord(MonthStart(MonthIndex(d))) + d.day - 1 == Ord(d)
    ensures Ord(d) < Ord(MonthStart(MonthIndex(d) + 1))
  {
    MonthStartOf(d);
    MonthStartStep(MonthIndex(d));
  }

  /** The month index of a date leads back to the first of its month. */
  lemma MonthStartOf(d: Date)
    requires 1 <= d.month <= 12
    ensures MonthStart(MonthIndex(d)) == Date(d.year, d.month, 1)
  {
    var idx := MonthIndex(d);
    assert idx / 12 == d.year && idx % 12 == d.month - 1;
  }

  /** A date in an earlier month comes before a date in a later month. */
  lemma EarlierMonthEarlierDay(a: Date, b: Date)
    requires ValidDate(a) && ValidDate(b)
    requires MonthIndex(a) < MonthIndex(b)
    ensures Ord(a) < Ord(b)
  {
    DayWithinMonth(a);
    DayWithinMonth(b);
    MonthStartMonotone(MonthIndex(a) + 1, MonthIndex(b));
  }

  /** Month indexes name months uniquely. */
  lemma SameMonth(a: Date, b: Date)
    requires 1 <= a.month <= 12 && 1 <= b.month <= 12
    requires MonthIndex(a) == MonthIndex(b)
    ensures a.year == b.year && a.month == b.month
  {
  }

  /** Valid dates with the same day number are the same date. */
  lemma OrdInjective(a: Date, b: Date)
    requires ValidDate(a) && ValidDate(b)
    requires Ord(a) == Ord(b)
    ensures a == b
  {
    if MonthIndex(a) < MonthIndex(b) {
      EarlierMonthEarlierDay(a, b);
    } else if MonthIndex(b) < MonthIndex(a) {
      EarlierMonthEarlierDay(b, a);
    } else {
      SameMonth(a, b);
    }
  }

  /** Counting the difference of two day numbers forward from one date reaches the other. */
  lemma AddDaysReaches(a: Date, b: Date, n: int)
    requires ValidDate(a) && ValidDate(b) && n == Ord(b) - Ord(a)
    ensures AddDays(a, n) == b
  {
    var reached := AddDays(a, n);
    OrdInjective(reached, b);
  }

  /** `time.Date(y, m, 1)` is the first day of month (y, m), for any month number. */
  lemma GoDateFirstDay(y: int, m: int)
    ensures GoDate(y, m, 1) == MonthStart(y * 12 + m - 1)
  {
    var s := Date(y + (m - 1) / 12, (m - 1) % 12 + 1, 1);
    assert AddDays(s, 0) == s;
  }

  /** A day past the month's end rolls into the next month. */
  lemma GoDateDayOverflow(idx: int, day: int)
    requires DaysInMonth(MonthStart(idx).year, MonthStart(idx).month) < day <= 31
    ensures GoDate(MonthStart(idx).year, MonthStart(idx).month, day).day
            == day - DaysInMonth(MonthStart(idx).year, MonthStart(idx).month)
  {
    var s := MonthStart(idx);
    var dim := DaysInMonth(s.year, s.month);
    assert s == Date(s.year + (s.month - 1) / 12, (s.month - 1) % 12 + 1, 1);
    assert GoDate(s.year, s.month, day) == AddDays(s, day - 1);
    var next := FirstOfNextMonth(s);
    NextMonthOrd(s);
    assert AddDays(s, day - 1) == AddDays(next, day - 1 - dim);
    assert AddDays(next, day - 1 - dim) == Date(next.year, next.month, day - dim);
  }

  /** Day 0 of the following month is the last day of this month. */
  lemma GoDateDayZeroOfNextMonth(idx: int)
    ensures GoDate(MonthStart(idx).year, MonthStart(idx).month + 1, 0)
            == Date(MonthStart(idx).year, MonthStart(idx).month, DaysInMonth(MonthStart(idx).year, MonthStart(idx).month))
  {
    var s := MonthStart(idx);
    var next := Date(s.year + s.month / 12, s.month % 12 + 1, 1);
    assert next == FirstOfNextMonth(s);
    var prev := LastOfPreviousMonth(next);
    assert prev == Date(s.year, s.month, DaysInMonth(s.year, s.month));
    assert AddDays(next, -1) == AddDays(prev, 0);
  }

  /** Go's zero `time.Time`, which formats as 0001-01-01. */
  const ZeroTime: Date := Date(1, 1, 1)

  /** Go's `Time.Weekday()`: Sunday is 0, Monday 1, ..., Saturday 6. */
  function Weekday(d: Date): (r: int)
    requires ValidDate(d)
    ensures 0 <= r < 7
    ensures d == ZeroTime ==> r == 1
  {
    (Ord(d) + 1) % 7
  }

  /** The Unix epoch, 1970-01-01, fell on a Thursday. */
  lemma EpochThursday()
    ensures Weekday(Date(1970, 1, 1)) == 4
  {
    assert Ord(Date(1970, 1, 1)) == 719162;
  }

  /** Weekdays repeat every seven days. */
  lemma WeekdayAfter(d: Date, r: Date, n: int)
    requires ValidDate(d) && ValidDate(r)
    requires Ord(r) == Ord(d) + n
    ensures Weekday(r) == (Weekday(d) + n) % 7
  {
    ModSevenShift(Ord(d) + 1, n);
  }

  /** Adding `n` days moves the weekday by `n`, modulo seven. */
  lemma ModSevenShift(x: int, n: int)
    ensures (x + n) % 7 == (x % 7 + n) % 7
  {
  }

  /**
   * A `YYYY-MM-DD` request field: the empty string, a well-formed text naming
   * year, month and day, or anything else.
   */
  datatype DateText = Blank | Text(date: Date) | Garbled

  /**
   * `time.ParseInLocation(DATE_DASH_FORMAT, ...)`: it fails on the empty
   * string, on malformed text and on a day that the month does not have.
   */
  function Parse(t: DateText): (r: Option<Date>)
    ensures r.Some? <==> t.Text? && ValidDate(t.date)
    ensures r.Some? ==> r.value == t.date
  {
    match t
    case Text(d) => if ValidDate(d) then Some(d) else None
    case _ => None
  }
}
