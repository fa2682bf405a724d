/**
 * Calendar and rate helpers of the plan (plan/util.go): month addition with
 * the day pinned to the month's end, first repay date inference, period
 * count inference, the derived loan end date, the interest rates and the
 * per-period accrual windows.
 */
module Util {
  import opened Wrappers
  import opened Calendar
  import opened Constants
  import opened Structs

  /** `day` when month (y, m) has it, otherwise the month's last day. */
  function PinnedDay(y: int, m: int, day: int): int
    requires 1 <= m <= 12
  {
    if 1 <= day <= DaysInMonth(y, m) then day else DaysInMonth(y, m)
  }

  /** Day `day` of the month with index `idx`, pinned to the month's last day. */
  function PinnedDate(idx: int, day: int): (r: Date)
    ensures ValidDate(r) && MonthIndex(r) == idx && r.day == PinnedDay(r.year, r.month, day)
  {
    var first := MonthStart(idx);
    Date(first.year, first.month, PinnedDay(first.year, first.month, day))
  }

  /**
   * calculateDateAddMonth: the date `monthsNum` months after the month of
   * `date`, on `day` when that month has it and on the month's last day
   * otherwise; it never rolls into the following month, and the day of
   * `date` plays no part.
   */
  function DateAddMonth(date: Date, monthsNum: int, day: int): (r: Date)
    requires ValidDate(date)
    ensures r == PinnedDate(MonthIndex(date) + monthsNum, day)
  {
    var firstDay := AddDate(date, 0, 0, -date.day + 1);
    var firstDayAddMonth := AddDate(firstDay, 0, monthsNum, 0);
    assert firstDay == Date(date.year, date.month, 1) by { FirstDayOfMonth(date); }
    assert firstDayAddMonth == MonthStart(MonthIndex(date) + monthsNum) by {
      FirstDayAddMonth(date, monthsNum);
    }
    PinDay(firstDayAddMonth, day)
  }

  /**
   * The last steps of calculateDateAddMonth, from the first day of the target
   * month: day `day` of it, or, when Go's normalisation rolled that into the
   * next month, day 0 of the next month, which is this month's last day.
   */
  function PinDay(firstDayAddMonth: Date, day: int): (r: Date)
    requires ValidDate(firstDayAddMonth) && firstDayAddMonth.day == 1
    ensures r == PinnedDate(MonthIndex(firstDayAddMonth), day)
  {
    var firstDayAddMonthAddDay := AddDate(firstDayAddMonth, 0, 0, day - 1);
    PinnedDayResult(firstDayAddMonth, day);
    if firstDayAddMonthAddDay.day != day then
      AddDate(firstDayAddMonth, 0, 1, -firstDayAddMonth.day)
    else
      firstDayAddMonthAddDay
  }

  /** PinDay's steps, from the first day `f` of a month. */
  lemma PinnedDayResult(f: Date, day: int)
    requires ValidDate(f) && f.day == 1
    ensures var x := AddDate(f, 0, 0, day - 1);
            var r := if x.day != day then AddDate(f, 0, 1, -f.day) else x;
            r == PinnedDate(MonthIndex(f), day)
  {
    var idx := MonthIndex(f);
    var start := MonthStart(idx);
    SameMonth(f, start);
    assert f == start;
    PinnedDayStepsHold(idx, day);
    var x := AddDate(f, 0, 0, day - 1);
    var r := if x.day != day then AddDate(f, 0, 1, -f.day) else x;
    SameMonth(r, PinnedDate(idx, day));
  }

  /** Moving the first of a month by whole months gives the first of the target month. */
  lemma FirstDayAddMonth(date: Date, monthsNum: int)
    requires ValidDate(date)
    ensures AddDate(Date(date.year, date.month, 1), 0, monthsNum, 0) == MonthStart(MonthIndex(date) + monthsNum)
  {
    GoDateFirstDay(date.year, date.month + monthsNum);
  }

  /** Going back `day - 1` days reaches the first of the month. */
  lemma FirstDayOfMonth(date: Date)
    requires ValidDate(date)
    ensures AddDate(date, 0, 0, -date.day + 1) == Date(date.year, date.month, 1)
  {
  }

  /** What Go's normalisation makes of day `day` and of day 0 of the next month, from month `idx`. */
  ghost predicate PinnedDaySteps(idx: int, day: int) {
    var f := MonthStart(idx);
    var dim := DaysInMonth(f.year, f.month);
    && (1 <= day <= dim ==> AddDate(f, 0, 0, day - 1) == Date(f.year, f.month, day))
    && (dim < day <= 31 ==> AddDate(f, 0, 0, day - 1).day == day - dim)
    && AddDate(f, 0, 1, -f.day) == Date(f.year, f.month, dim)
  }

  /** Go's normalisation behaves as PinnedDaySteps describes, for every month. */
  lemma PinnedDayStepsHold(idx: int, day: int)
    ensures PinnedDaySteps(idx, day)
  {
    var f := MonthStart(idx);
    var dim := DaysInMonth(f.year, f.month);
    if dim < day <= 31 {
      GoDateDayOverflow(idx, day);
    }
    GoDateDayZeroOfNextMonth(idx);
  }

  /** A later month's pinned date is a later date. */
  lemma PinnedDateIncreasing(i: int, j: int, day: int)
    requires i < j
    ensures Ord(PinnedDate(i, day)) < Ord(PinnedDate(j, day))
  {
    EarlierMonthEarlierDay(PinnedDate(i, day), PinnedDate(j, day));
  }

  /**
   * weekDayToDay: Go's weekday (Sunday 0 ... Saturday 6) as an ISO day
   * number, Monday 1 ... Sunday 7; anything else is 0.
   */
  function WeekDayToDay(weekday: int): (r: int)
    ensures 0 <= weekday <= 6 ==> 1 <= r <= 7 && r % 7 == weekday
    ensures !(0 <= weekday <= 6) ==> r == 0
  {
    if weekday == 0 then 7
    else if 1 <= weekday <= 6 then weekday
    else 0
  }

  /**
   * getFirstRepayDateOfLoanCycleFortnightly: the weekday of the start date
   * (read two weeks later) is compared with `repayDay`; when they agree the
   * first repay date is one week after the start, otherwise it is the day
   * `repayDay` of the week two weeks after the start's week.
   */
  function FirstRepayDateFortnightly(repayDay: int, loanStartDate: Date): (r: Date)
    requires ValidDate(loanStartDate)
    ensures ValidDate(r)
    ensures 1 <= repayDay <= 7 ==> WeekDayToDay(Weekday(r)) == repayDay
    ensures 1 <= repayDay <= 7 ==> Ord(loanStartDate) + 7 <= Ord(r) <= Ord(loanStartDate) + 20
    ensures 1 <= repayDay ==> Ord(loanStartDate) + 7 <= Ord(r)
  {
    var later := AddDate(loanStartDate, 0, 0, 14);
    WeekdayAfter(loanStartDate, later, 14);
    var weekDay := WeekDayToDay(Weekday(later));
    var shift := if repayDay != weekDay then 14 + repayDay - weekDay else 7;
    var r := AddDate(loanStartDate, 0, 0, shift);
    WeekdayAfter(loanStartDate, r, shift);
    FortnightWeekday(Weekday(loanStartDate), repayDay, weekDay, shift);
    r
  }

  /**
   * Weekday arithmetic behind FirstRepayDateFortnightly: from a start on
   * weekday `w`, whose weekday two weeks on is `weekDay`, moving `shift` days
   * lands on `repayDay`.
   */
  lemma FortnightWeekday(w: int, repayDay: int, weekDay: int, shift: int)
    requires 0 <= w <= 6 && weekDay == WeekDayToDay((w + 14) % 7)
    requires shift == if repayDay != weekDay then 14 + repayDay - weekDay else 7
    ensures 1 <= weekDay <= 7
    ensures 1 <= repayDay <= 7 ==> WeekDayToDay((w + shift) % 7) == repayDay
  {
  }

  /**
   * getFirstRepayDateOfLoanCycleMonthly: `repayDay` of this month when it is
   * still ahead of the start day, otherwise of next month, moved one month on
   * when that leaves fewer than 20 days. The result is at least 20 days after
   * the start and is `repayDay` pinned into the start's month or one of the
   * next two; for a repay day of 1 or more it is the first such pinned date
   * from the start's month on that is 20 days or more after the start.
   */
  function FirstRepayDateMonthly(repayDay: int, loanStartDate: Date): (r: Date)
    requires ValidDate(loanStartDate)
    ensures ValidDate(r)
    ensures Ord(r) >= Ord(loanStartDate) + 20
    ensures MonthIndex(loanStartDate) <= MonthIndex(r) <= MonthIndex(loanStartDate) + 2
    ensures r == PinnedDate(MonthIndex(r), repayDay)
    ensures 1 <= repayDay ==>
              forall idx :: MonthIndex(loanStartDate) <= idx < MonthIndex(r) ==>
                Ord(PinnedDate(idx, repayDay)) < Ord(loanStartDate) + 20
  {
    var monthsAhead := if repayDay > loanStartDate.day then 0 else 1;
    var nextRepayDate := DateAddMonth(loanStartDate, monthsAhead, repayDay);
    if Ord(nextRepayDate) - Ord(loanStartDate) < 20 then
      var r := DateAddMonth(nextRepayDate, 1, repayDay);
      BumpedCandidate(repayDay, loanStartDate, nextRepayDate, r);
      r
    else
      KeptCandidate(repayDay, loanStartDate, nextRepayDate);
      nextRepayDate
  }

  /** Only this month's candidate can be passed over when the first candidate is kept. */
  lemma KeptCandidate(repayDay: int, start: Date, c: Date)
    requires ValidDate(start)
    requires MonthIndex(c) == MonthIndex(start) + (if repayDay > start.day then 0 else 1)
    ensures 1 <= repayDay ==>
              forall idx :: MonthIndex(start) <= idx < MonthIndex(c) ==> Ord(PinnedDate(idx, repayDay)) < Ord(start) + 20
  {
    if 1 <= repayDay {
      forall idx | MonthIndex(start) <= idx < MonthIndex(c)
        ensures Ord(PinnedDate(idx, repayDay)) < Ord(start) + 20
      {
        ThisMonthNotAhead(repayDay, start, PinnedDate(idx, repayDay));
      }
    }
  }

  /**
   * When the first candidate `c` is fewer than 20 days after the start, the
   * next month's `r` is 20 days or more after it, and every candidate before
   * `r` is too close.
   */
  lemma BumpedCandidate(repayDay: int, start: Date, c: Date, r: Date)
    requires ValidDate(start)
    requires ValidDate(c) && c.day == PinnedDay(c.year, c.month, repayDay)
    requires MonthIndex(c) == MonthIndex(start) + (if repayDay > start.day then 0 else 1)
    requires Ord(c) - Ord(start) < 20
    requires ValidDate(r) && r.day == PinnedDay(r.year, r.month, repayDay)
    requires MonthIndex(r) == MonthIndex(c) + 1
    ensures Ord(r) >= Ord(start) + 20
    ensures 1 <= repayDay ==>
              forall idx :: MonthIndex(start) <= idx < MonthIndex(r) ==> Ord(PinnedDate(idx, repayDay)) < Ord(start) + 20
  {
    if repayDay > start.day {
      BumpFromThisMonth(repayDay, start, r);
    } else {
      BumpFromNextMonth(start, r);
    }
    if 1 <= repayDay {
      forall idx | MonthIndex(start) <= idx < MonthIndex(r)
        ensures Ord(PinnedDate(idx, repayDay)) < Ord(start) + 20
      {
        var d := PinnedDate(idx, repayDay);
        if idx == MonthIndex(c) {
          PinnedUnique(repayDay, d, c);
        } else {
          ThisMonthNotAhead(repayDay, start, d);
        }
      }
    }
  }

  /** A month has one pinned date for a given repay day. */
  lemma PinnedUnique(repayDay: int, a: Date, b: Date)
    requires ValidDate(a) && a.day == PinnedDay(a.year, a.month, repayDay)
    requires ValidDate(b) && b.day == PinnedDay(b.year, b.month, repayDay)
    requires MonthIndex(a) == MonthIndex(b)
    ensures a == b
  {
    SameMonth(a, b);
  }

  /** A repay day not after the start day falls, in the start's month, on or before the start. */
  lemma ThisMonthNotAhead(repayDay: int, start: Date, d: Date)
    requires ValidDate(start) && 1 <= repayDay <= start.day
    requires ValidDate(d) && d.day == PinnedDay(d.year, d.month, repayDay)
    requires MonthIndex(d) == MonthIndex(start)
    ensures Ord(d) <= Ord(start)
  {
    SameMonth(d, start);
  }

  /** A pinned day is at least 1, and at least 28 unless it is the requested day. */
  lemma PinnedDayBounds(y: int, m: int, day: int)
    requires 1 <= m <= 12
    ensures 1 <= PinnedDay(y, m, day)
    ensures PinnedDay(y, m, day) == day || PinnedDay(y, m, day) >= 28
  {
  }

  /** The day numbers of the first days of three consecutive months, from the month of `d`. */
  lemma MonthsAround(d: Date)
    requires ValidDate(d)
    ensures Ord(MonthStart(MonthIndex(d))) == Ord(d) - d.day + 1
    ensures Ord(MonthStart(MonthIndex(d) + 1)) == Ord(d) - d.day + 1 + DaysInMonth(d.year, d.month)
    ensures Ord(MonthStart(MonthIndex(d) + 2)) >= Ord(MonthStart(MonthIndex(d) + 1)) + 28
  {
    ThisMonthStart(d);
    NextMonthStart(d);
    MonthStartStep(MonthIndex(d) + 1);
  }

  /** The first of the month of `d` lies `d.day - 1` days before it. */
  lemma ThisMonthStart(d: Date)
    requires ValidDate(d)
    ensures Ord(MonthStart(MonthIndex(d))) == Ord(d) - d.day + 1
  {
    MonthStartOf(d);
  }

  /** The first of the month after that of `d` lies a month's length after the first of its month. */
  lemma NextMonthStart(d: Date)
    requires ValidDate(d)
    ensures Ord(MonthStart(MonthIndex(d) + 1)) == Ord(MonthStart(MonthIndex(d))) + DaysInMonth(d.year, d.month)
  {
    MonthStartOf(d);
    MonthStartStep(MonthIndex(d));
  }

  /** Next month's pinned repay day is 20 days or more after a start day before the repay day. */
  lemma BumpFromThisMonth(repayDay: int, start: Date, r: Date)
    requires ValidDate(start) && repayDay > start.day
    requires ValidDate(r) && MonthIndex(r) == MonthIndex(start) + 1
    requires r.day == PinnedDay(r.year, r.month, repayDay)
    ensures Ord(r) >= Ord(start) + 20
  {
    MonthsAround(start);
    DayWithinMonth(r);
    PinnedDayBounds(r.year, r.month, repayDay);
    var dim := DaysInMonth(start.year, start.month);
    assert Ord(r) == Ord(start) - start.day + dim + r.day;
  }

  /** Any day two months on is 20 days or more after the start. */
  lemma BumpFromNextMonth(start: Date, r: Date)
    requires ValidDate(start)
    requires ValidDate(r) && MonthIndex(r) == MonthIndex(start) + 2
    ensures Ord(r) >= Ord(start) + 20
  {
    MonthsAround(start);
    DayWithinMonth(r);
  }

  /** The cycle a cycle code names, when the plan has a date rule for it. */
  function CycleOf(loanCycleCode: string): (r: Option<Cycle>)
    ensures r == Some(Fortnightly) <==> loanCycleCode == LoanCycleFortnightly
    ensures r == Some(Monthly) <==> loanCycleCode == LoanCycleMonthly
    ensures r.None? <==> loanCycleCode != LoanCycleFortnightly && loanCycleCode != LoanCycleMonthly
  {
    if loanCycleCode == LoanCycleFortnightly then Some(Fortnightly)
    else if loanCycleCode == LoanCycleMonthly then Some(Monthly)
    else None
  }

  /**
   * calculateFirstRepayDate: the cycle's first-repay-date rule; no date for
   * the daily, quarterly and yearly cycles, which have no rule.
   */
  function CalculateFirstRepayDate(loanStartDate: Date, loanCycleCode: string, repayDay: int): (r: Option<Date>)
    requires ValidDate(loanStartDate)
    ensures r.Some? <==> CycleOf(loanCycleCode).Some?
    ensures r.Some? ==> ValidDate(r.value)
    ensures r.Some? && 1 <= repayDay ==> Ord(loanStartDate) + 7 <= Ord(r.value)
    ensures CycleOf(loanCycleCode) == Some(Monthly) ==> Ord(loanStartDate) + 20 <= Ord(r.value)
    ensures CycleOf(loanCycleCode) == Some(Fortnightly) && 1 <= repayDay <= 7 ==>
              WeekDayToDay(Weekday(r.value)) == repayDay
  {
    if loanCycleCode == LoanCycleFortnightly then Some(FirstRepayDateFortnightly(repayDay, loanStartDate))
    else if loanCycleCode == LoanCycleMonthly then Some(FirstRepayDateMonthly(repayDay, loanStartDate))
    else None
  }

  /**
   * getFirstRepayDate: the cycle's first repay date, brought back to the
   * loan end date when there is one and the first repay date lies after it.
   * A non-empty end date that does not parse is an error.
   */
  function GetFirstRepayDate(loanEndDate: DateText, loanCycleCode: string, repayDay: int, loanStartDate: Date): (r: Result<Date, Error>)
    requires ValidDate(loanStartDate)
    ensures r == Err(EndDateError) <==> loanEndDate != Blank && Parse(loanEndDate).None?
    ensures r == Err(UnsupportedCycle) <==>
              (loanEndDate == Blank || Parse(loanEndDate).Some?) && CycleOf(loanCycleCode).None?
    ensures r.Ok? ==> ValidDate(r.value)
    ensures r.Ok? && loanEndDate != Blank ==> Ord(r.value) <= Ord(loanEndDate.date)
    ensures r.Ok? ==> var next := CalculateFirstRepayDate(loanStartDate, loanCycleCode, repayDay).value;
                      r.value == next ||
                      (loanEndDate != Blank && r.value == loanEndDate.date && Ord(loanEndDate.date) < Ord(next))
  {
    var nextRepayDate := CalculateFirstRepayDate(loanStartDate, loanCycleCode, repayDay);
    if loanEndDate != Blank && Parse(loanEndDate).None? then Err(EndDateError)
    else if nextRepayDate.None? then Err(UnsupportedCycle)
    else if loanEndDate != Blank && Ord(nextRepayDate.value) > Ord(loanEndDate.date) then Ok(loanEndDate.date)
    else Ok(nextRepayDate.value)
  }

  /**
   * The date `i` cycles after `base`: `14 * i` days later for the fortnightly
   * cycle, `repayDay` pinned into the month `i` months later for the monthly
   * one. From the first repay date it gives the due date of period `i`; from
   * the loan start date, the step the period count is measured by.
   */
  function DueDate(cycle: Cycle, base: Date, repayDay: int, i: int): (r: Date)
    requires ValidDate(base)
    ensures ValidDate(r)
  {
    match cycle
    case Fortnightly => AddDate(base, 0, 0, i * 14)
    case Monthly => PinnedDate(MonthIndex(base) + i, repayDay)
  }

  /**
   * A fortnightly due date lies `14 * i` days after the base; a monthly one
   * lies `i` months after the base's month, on the repay day pinned to that
   * month.
   */
  lemma DueDateSteps(cycle: Cycle, base: Date, repayDay: int, i: int)
    requires ValidDate(base)
    ensures var r := DueDate(cycle, base, repayDay, i);
      && (cycle == Fortnightly ==> Ord(r) == Ord(base) + 14 * i)
      && (cycle == Monthly ==> MonthIndex(r) == MonthIndex(base) + i && r.day == PinnedDay(r.year, r.month, repayDay))
  {
  }

  /** Due dates move forward with the cycle count, and all of them after the first lie after it. */
  lemma DueDateIncreasing(cycle: Cycle, firstRepayDate: Date, repayDay: int, i: int, j: int)
    requires ValidDate(firstRepayDate) && i < j
    ensures Ord(DueDate(cycle, firstRepayDate, repayDay, i)) < Ord(DueDate(cycle, firstRepayDate, repayDay, j))
    ensures 1 <= j ==> Ord(firstRepayDate) < Ord(DueDate(cycle, firstRepayDate, repayDay, j))
  {
    match cycle
    case Fortnightly => FortnightlyDueDateIncreasing(firstRepayDate, repayDay, i, j);
    case Monthly => MonthlyDueDateIncreasing(firstRepayDate, repayDay, i, j);
  }

  /** Fortnightly due dates strictly increase with the period. */
  lemma FortnightlyDueDateIncreasing(firstRepayDate: Date, repayDay: int, i: int, j: int)
    requires ValidDate(firstRepayDate) && i < j
    ensures Ord(DueDate(Fortnightly, firstRepayDate, repayDay, i)) < Ord(DueDate(Fortnightly, firstRepayDate, repayDay, j))
    ensures 1 <= j ==> Ord(firstRepayDate) < Ord(DueDate(Fortnightly, firstRepayDate, repayDay, j))
  {
  }

  /** Monthly due dates strictly increase with the period. */
  lemma MonthlyDueDateIncreasing(firstRepayDate: Date, repayDay: int, i: int, j: int)
    requires ValidDate(firstRepayDate) && i < j
    ensures Ord(DueDate(Monthly, firstRepayDate, repayDay, i)) < Ord(DueDate(Monthly, firstRepayDate, repayDay, j))
    ensures 1 <= j ==> Ord(firstRepayDate) < Ord(DueDate(Monthly, firstRepayDate, repayDay, j))
  {
    var x := DueDate(Monthly, firstRepayDate, repayDay, i);
    var y := DueDate(Monthly, firstRepayDate, repayDay, j);
    assert MonthIndex(x) < MonthIndex(y);
    EarlierMonthEarlierDay(x, y);
    if 1 <= j {
      assert MonthIndex(firstRepayDate) < MonthIndex(y);
      EarlierMonthEarlierDay(firstRepayDate, y);
    }
  }

  /**
   * `k` is the period count of a loan from `loanStartDate` to `loanEndDate`:
   * the least k >= 1 whose step from the start is on or after the end date.
   */
  ghost predicate IsPeriodCount(cycle: Cycle, loanStartDate: Date, loanEndDate: Date, repayDay: int, k: int)
    requires ValidDate(loanStartDate) && ValidDate(loanEndDate)
  {
    && k >= 1
    && Ord(DueDate(cycle, loanStartDate, repayDay, k)) >= Ord(loanEndDate)
    && forall j :: 1 <= j < k ==> Ord(DueDate(cycle, loanStartDate, repayDay, j)) < Ord(loanEndDate)
  }

  /** Steps increase, so when step `k` is before the end date, so is every step from 1 to `k`. */
  lemma {:induction false} StepsBeforeEnd(cycle: Cycle, loanStartDate: Date, loanEndDate: Date, repayDay: int, k: int)
    requires ValidDate(loanStartDate) && ValidDate(loanEndDate)
    requires Ord(DueDate(cycle, loanStartDate, repayDay, k)) < Ord(loanEndDate)
    ensures forall j :: 1 <= j <= k ==> Ord(DueDate(cycle, loanStartDate, repayDay, j)) < Ord(loanEndDate)
    decreases if k < 1 then 0 else k
  {
    if k > 1 {
      DueDateIncreasing(cycle, loanStartDate, repayDay, k - 1, k);
      StepsBeforeEnd(cycle, loanStartDate, loanEndDate, repayDay, k - 1);
    }
  }

  /** The first step on or after the end date, after steps that all fell before it, gives the period count. */
  lemma PeriodCountFound(cycle: Cycle, loanStartDate: Date, loanEndDate: Date, repayDay: int, passed: int, k: int)
    requires ValidDate(loanStartDate) && ValidDate(loanEndDate)
    requires k >= 1 && passed == k - 1
    requires Ord(DueDate(cycle, loanStartDate, repayDay, k)) >= Ord(loanEndDate)
    requires passed >= 1 ==> Ord(DueDate(cycle, loanStartDate, repayDay, passed)) < Ord(loanEndDate)
    ensures IsPeriodCount(cycle, loanStartDate, loanEndDate, repayDay, k)
  {
    if passed >= 1 {
      StepsBeforeEnd(cycle, loanStartDate, loanEndDate, repayDay, passed);
    }
  }

  /**
   * calculateTotalPeriodNum: counts cycles forward from the loan start date
   * until a step reaches the end date; 1 for a cycle without a date rule. An
   * end date that does not parse is an error.
   */
  method CalculateTotalPeriodNum(loanCycleCode: string, loanStartDate: Date, loanEndDate: DateText, repayDay: int)
    returns (r: Result<int, Error>)
    requires ValidDate(loanStartDate)
    ensures Parse(loanEndDate).None? ==> r == Err(EndDateFormatError)
    ensures Parse(loanEndDate).Some? ==> r.Ok? && r.value >= 1
    ensures Parse(loanEndDate).Some? && CycleOf(loanCycleCode).Some? ==>
              IsPeriodCount(CycleOf(loanCycleCode).value, loanStartDate, loanEndDate.date, repayDay, r.value)
    ensures Parse(loanEndDate).Some? && CycleOf(loanCycleCode).None? ==> r == Ok(1)
  {
    var period := 1;
    var end := Parse(loanEndDate);
    if end.None? {
      return Err(EndDateFormatError);
    }
    var loanEnd := end.value;
    if loanCycleCode == LoanCycleFortnightly {
      period := CountFortnights(loanStartDate, loanEnd);
      assert IsPeriodCount(Fortnightly, loanStartDate, loanEnd, repayDay, period);
    } else if loanCycleCode == LoanCycleMonthly {
      period := CountMonths(loanStartDate, loanEnd, repayDay);
    }
    return Ok(period);
  }

  /** The fortnightly loop of calculateTotalPeriodNum: steps of 14 days from the start. */
  method CountFortnights(loanStartDate: Date, loanEnd: Date) returns (period: int)
    requires ValidDate(loanStartDate) && ValidDate(loanEnd)
    ensures forall repayDay :: IsPeriodCount(Fortnightly, loanStartDate, loanEnd, repayDay, period)
  {
    period := 1;
    ghost var passed := 0;  // the last period whose step fell before the end date
    var cycle := 14;
    while true
      invariant period >= 1 && passed == period - 1
      invariant passed >= 1 ==> Ord(AddDate(loanStartDate, 0, 0, passed * 14)) < Ord(loanEnd)
      decreases Ord(loanEnd) - Ord(AddDate(loanStartDate, 0, 0, period * 14))
    {
      var repayDateAddCycle := AddDate(loanStartDate, 0, 0, period * cycle);
      if Ord(repayDateAddCycle) >= Ord(loanEnd) {
        break;
      }
      passed := period;
      period := period + 1;
    }
    forall repayDay
      ensures IsPeriodCount(Fortnightly, loanStartDate, loanEnd, repayDay, period)
    {
      PeriodCountFound(Fortnightly, loanStartDate, loanEnd, repayDay, passed, period);
    }
  }

  /** The monthly loop of calculateTotalPeriodNum: the repay day pinned into each following month. */
  method CountMonths(loanStartDate: Date, loanEnd: Date, repayDay: int) returns (period: int)
    requires ValidDate(loanStartDate) && ValidDate(loanEnd)
    ensures IsPeriodCount(Monthly, loanStartDate, loanEnd, repayDay, period)
  {
    period := 1;
    ghost var passed := 0;  // the last period whose step fell before the end date
    while true
      invariant period >= 1 && passed == period - 1
      invariant passed >= 1 ==> Ord(DueDate(Monthly, loanStartDate, repayDay, passed)) < Ord(loanEnd)
      decreases Ord(loanEnd) - Ord(DueDate(Monthly, loanStartDate, repayDay, period))
    {
      var repayDate := DateAddMonth(loanStartDate, period, repayDay);
      assert repayDate == DueDate(Monthly, loanStartDate, repayDay, period);
      if Ord(repayDate) >= Ord(loanEnd) {
        break;
      }
      DueDateIncreasing(Monthly, loanStartDate, repayDay, period, period + 1);
      passed := period;
      period := period + 1;
    }
    PeriodCountFound(Monthly, loanStartDate, loanEnd, repayDay, passed, period);
  }

  /**
   * getTotalPeriodNum: the requested period count, in months when it is given
   * in years; when none is requested, the count inferred from the end date.
   */
  method GetTotalPeriodNum(request: Request, loanStartDate: Date) returns (r: Result<int, Error>)
    requires ValidDate(loanStartDate)
    ensures request.periodNum != 0 && request.periodType == PeriodTypeYear ==> r == Ok(12 * request.periodNum)
    ensures request.periodNum != 0 && request.periodType != PeriodTypeYear ==> r == Ok(request.periodNum)
    ensures request.periodNum == 0 ==> (r == Err(EndDateFormatError) <==> Parse(request.loanEndDate).None?)
    ensures request.periodNum == 0 && Parse(request.loanEndDate).Some? ==>
              r.Ok? && r.value >= 1 &&
              (CycleOf(request.loanCycleCode).Some? ==>
                 IsPeriodCount(CycleOf(request.loanCycleCode).value, loanStartDate, request.loanEndDate.date, request.repayDay, r.value))
  {
    if request.periodNum == 0 {
      r := CalculateTotalPeriodNum(request.loanCycleCode, loanStartDate, request.loanEndDate, request.repayDay);
    } else {
      if request.periodType == PeriodTypeYear {
        r := Ok(12 * request.periodNum);
      } else {
        r := Ok(request.periodNum);
      }
    }
  }

  /** calculateLoanEndDateWithLoanCycleFortnightly: `periodNum` fortnights after the first repay date. */
  function FortnightlyEndDate(firstRepayDate: Date, periodNum: int): (r: Date)
    requires ValidDate(firstRepayDate)
    ensures ValidDate(r)
    ensures Ord(r) == Ord(firstRepayDate) + 14 * periodNum
    ensures Weekday(r) == Weekday(firstRepayDate)
  {
    var cycle := 14 * periodNum;
    var r := AddDate(firstRepayDate, 0, 0, cycle);
    WeekdayAfter(firstRepayDate, r, cycle);
    FortnightsKeepWeekday(Weekday(firstRepayDate), periodNum);
    r
  }

  /** Whole fortnights leave the weekday where it was. */
  lemma FortnightsKeepWeekday(w: int, n: int)
    requires 0 <= w < 7
    ensures (w + 14 * n) % 7 == w
  {
    assert w + 14 * n == w + 7 * (2 * n);
  }

  /**
   * The date getLoanEndDate derives for `periodNum` cycles after the first
   * repay date: the due date of that cycle, and Go's zero time for a cycle
   * without a date rule.
   */
  function LoanEndDateFor(loanCycleCode: string, firstRepayDate: Date, periodNum: int, repayDay: int): (r: Date)
    requires ValidDate(firstRepayDate)
    ensures ValidDate(r)
    ensures CycleOf(loanCycleCode).Some? ==> r == DueDate(CycleOf(loanCycleCode).value, firstRepayDate, repayDay, periodNum)
    ensures CycleOf(loanCycleCode).None? ==> r == ZeroTime
  {
    if loanCycleCode == LoanCycleFortnightly then
      var r := FortnightlyEndDate(firstRepayDate, periodNum);
      OrdInjective(r, DueDate(Fortnightly, firstRepayDate, repayDay, periodNum));
      r
    else if loanCycleCode == LoanCycleMonthly then DateAddMonth(firstRepayDate, periodNum, repayDay)
    else ZeroTime
  }

  /**
   * getLoanEndDate as written: when the request has no end date or asks for
   * a period count, its end date is replaced by the due date `PeriodNum - 1`
   * cycles after the first repay date. The requested count is used even when
   * it is in years, so the end date then falls far inside the plan.
   */
  method GetLoanEndDateAsWritten(request: Request, firstRepayDate: Date)
    requires ValidDate(firstRepayDate)
    modifies request`loanEndDate
    ensures old(request.loanEndDate) == Blank || (request.periodNum != 0 && old(request.loanEndDate) != Blank) ==>
              request.loanEndDate == Text(LoanEndDateFor(request.loanCycleCode, firstRepayDate, request.periodNum - 1, request.repayDay))
    ensures old(request.loanEndDate) != Blank && request.periodNum == 0 ==> request.loanEndDate == old(request.loanEndDate)
  {
    if request.loanEndDate == Blank || (request.periodNum != 0 && request.loanEndDate != Blank) {
      var loanEndDate := LoanEndDateFor(request.loanCycleCode, firstRepayDate, request.periodNum - 1, request.repayDay);
      request.loanEndDate := Text(loanEndDate);
    }
  }

  /**
   * getLoanEndDate with the plan's own period count: the end date becomes the
   * due date of the last of the `totalPeriodNum` periods.
   */
  method GetLoanEndDate(request: Request, firstRepayDate: Date, totalPeriodNum: int)
    requires ValidDate(firstRepayDate)
    modifies request`loanEndDate
    ensures old(request.loanEndDate) == Blank || (request.periodNum != 0 && old(request.loanEndDate) != Blank) ==>
              request.loanEndDate == Text(LoanEndDateFor(request.loanCycleCode, firstRepayDate, totalPeriodNum - 1, request.repayDay))
    ensures old(request.loanEndDate) != Blank && request.periodNum == 0 ==> request.loanEndDate == old(request.loanEndDate)
  {
    if request.loanEndDate == Blank || (request.periodNum != 0 && request.loanEndDate != Blank) {
      var loanEndDate := LoanEndDateFor(request.loanCycleCode, firstRepayDate, totalPeriodNum - 1, request.repayDay);
      request.loanEndDate := Text(loanEndDate);
    }
  }

  /**
   * With the end date getLoanEndDate derives as written, a plan of
   * `periodNum` years, which runs `12 * periodNum` monthly or fortnightly
   * periods, has a last window that ends before it starts: its repay date is
   * the due date `periodNum - 1` cycles on, long before the due date of the
   * period ahead of it, and its day count is not positive.
   */
  lemma AsWrittenEndDateInvertsLastWindow(p: PlanRequest, loanCycleCode: string, periodNum: int)
    requires ValidPlan(p) && periodNum >= 1 && p.totalPeriodNum == 12 * periodNum
    requires CycleOf(loanCycleCode) == Some(p.loanCycle)
    requires p.loanEndDate == LoanEndDateFor(loanCycleCode, p.firstRepayDate, periodNum - 1, p.repayDay)
    ensures var w := WindowOf(p, p.totalPeriodNum - 1);
      && Ord(w.accrualEnd) < Ord(w.accrualStart)
      && DaysBetween(w.accrualStart, w.accrualEnd) < 1
  {
    EndDateForIsDue(loanCycleCode, p.firstRepayDate, periodNum - 1, p.repayDay, p.loanEndDate);
    YearsEndInvertsLastWindow(p, periodNum);
  }

  /** The same, for an end date given as the due date `periodNum - 1` cycles on. */
  lemma YearsEndInvertsLastWindow(p: PlanRequest, periodNum: int)
    requires ValidPlan(p) && periodNum >= 1 && p.totalPeriodNum == 12 * periodNum
    requires p.loanEndDate == DueDate(p.loanCycle, p.firstRepayDate, p.repayDay, periodNum - 1)
    ensures var w := WindowOf(p, p.totalPeriodNum - 1);
      Ord(w.accrualEnd) < Ord(w.accrualStart)
  {
    EarlyEndInvertsLastWindow(p, periodNum - 1);
  }

  /** An end date getLoanEndDate derives for a cycle with a date rule is that cycle's due date. */
  lemma EndDateForIsDue(loanCycleCode: string, firstRepayDate: Date, periodNum: int, repayDay: int, end: Date)
    requires ValidDate(firstRepayDate) && CycleOf(loanCycleCode).Some?
    requires end == LoanEndDateFor(loanCycleCode, firstRepayDate, periodNum, repayDay)
    ensures end == DueDate(CycleOf(loanCycleCode).value, firstRepayDate, repayDay, periodNum)
  {
  }

  /**
   * A plan whose end date is the due date of a cycle before its
   * second-to-last period has a last window that ends before it starts.
   */
  lemma EarlyEndInvertsLastWindow(p: PlanRequest, k: int)
    requires ValidPlan(p) && 3 <= p.totalPeriodNum && k < p.totalPeriodNum - 2
    requires p.loanEndDate == DueDate(p.loanCycle, p.firstRepayDate, p.repayDay, k)
    ensures var w := WindowOf(p, p.totalPeriodNum - 1);
      Ord(w.accrualEnd) < Ord(w.accrualStart)
  {
    EndBeforeRepayDate(p, k, p.totalPeriodNum - 2);
    LastWindowInverts(p);
  }

  /** An end date due `k` cycles on lies before the repay date of any later period `j` short of the last. */
  lemma EndBeforeRepayDate(p: PlanRequest, k: int, j: int)
    requires ValidPlan(p) && 1 <= j < p.totalPeriodNum - 1 && k < j
    requires p.loanEndDate == DueDate(p.loanCycle, p.firstRepayDate, p.repayDay, k)
    ensures Ord(p.loanEndDate) < Ord(RepayDateOf(p, j))
  {
    MiddleRepayDate(p, j);
    DueDateIncreasing(p.loanCycle, p.firstRepayDate, p.repayDay, k, j);
  }

  /** When the loan end date is before the second-to-last repay date, the last window ends before it starts. */
  lemma LastWindowInverts(p: PlanRequest)
    requires ValidPlan(p) && p.totalPeriodNum >= 2
    requires Ord(p.loanEndDate) < Ord(RepayDateOf(p, p.totalPeriodNum - 2))
    ensures var w := WindowOf(p, p.totalPeriodNum - 1);
      Ord(w.accrualEnd) < Ord(w.accrualStart)
  {
    WindowAfter(p, p.totalPeriodNum - 1);
    LastRepayDate(p);
  }

  /** Window `i` after the first runs from the previous repay date to the day before its own. */
  lemma WindowAfter(p: PlanRequest, i: int)
    requires ValidPlan(p) && 1 <= i
    ensures WindowOf(p, i).accrualStart == RepayDateOf(p, i - 1)
    ensures WindowOf(p, i).repayDate == RepayDateOf(p, i)
    ensures Ord(WindowOf(p, i).accrualEnd) + 1 == Ord(RepayDateOf(p, i))
  {
  }

  /**
   * The first window counts at least one day: the first repay date is at
   * least seven days after the loan start, or it is the given end date,
   * which the request guard puts after the start.
   */
  lemma FirstWindowForward(p: PlanRequest, loanEndDate: DateText, loanCycleCode: string)
    requires ValidPlan(p) && 1 <= p.repayDay
    requires GetFirstRepayDate(loanEndDate, loanCycleCode, p.repayDay, p.loanStartDate) == Ok(p.firstRepayDate)
    requires loanEndDate.Text? ==> Ord(p.loanStartDate) < Ord(loanEndDate.date)
    ensures Ord(WindowOf(p, 0).accrualStart) <= Ord(WindowOf(p, 0).accrualEnd)
    ensures DaysBetween(WindowOf(p, 0).accrualStart, WindowOf(p, 0).accrualEnd) >= 1
  {
    var w := WindowOf(p, 0);
    assert Ord(w.accrualEnd) == Ord(p.firstRepayDate) - 1;
  }

  /**
   * With a given end date and no period count, the count steps from the
   * loan start while the due dates step from the first repay date. A monthly
   * loan from 2022-01-25 to 2022-03-15 on repay day 1 gets the first repay
   * date 2022-03-01 (not after the end date, so it is kept) and three
   * periods, so its last window runs from the second due date, 2022-04-01,
   * back to 2022-03-14.
   */
  lemma GivenEndDateInvertsWindow(p: PlanRequest)
    requires p.loanCycle == Monthly && p.repayDay == 1 && p.totalPeriodNum == 3
    requires p.loanStartDate == Date(2022, 1, 25) && p.loanEndDate == Date(2022, 3, 15)
    requires p.firstRepayDate == Date(2022, 3, 1)
    ensures FirstRepayDateMonthly(p.repayDay, p.loanStartDate) == p.firstRepayDate
    ensures Ord(p.firstRepayDate) < Ord(p.loanEndDate)
    ensures IsPeriodCount(Monthly, p.loanStartDate, p.loanEndDate, p.repayDay, p.totalPeriodNum)
    ensures WindowOf(p, 2).accrualStart == Date(2022, 4, 1) && WindowOf(p, 2).accrualEnd == Date(2022, 3, 14)
    ensures DaysBetween(WindowOf(p, 2).accrualStart, WindowOf(p, 2).accrualEnd) == -17
  {
    ExampleDates();
    ExampleFirstRepayDate();
    ExamplePeriodCount();
    ExampleLastWindow(p);
  }

  /**
   * A monthly first repay date clamped to a given end date later in its
   * month than the repay day outlives the end date derived for a single
   * period: that end date is the repay day of the same month. A loan from
   * 2022-01-25 to 2022-02-10 on repay day 1 with a period count of 1 is one
   * (`ExampleFirstRepayDate`: the computed first repay date, 2022-03-01,
   * lies after 2022-02-10, so it is clamped to it); its end date becomes
   * 2022-02-01.
   */
  lemma ClampedFirstRepayDateOutlivesEnd(firstRepayDate: Date, repayDay: int)
    requires ValidDate(firstRepayDate) && 1 <= repayDay < firstRepayDate.day
    ensures DueDate(Monthly, firstRepayDate, repayDay, 0) ==
              Date(firstRepayDate.year, firstRepayDate.month, repayDay)
    ensures Ord(DueDate(Monthly, firstRepayDate, repayDay, 0)) + firstRepayDate.day - repayDay == Ord(firstRepayDate)
  {
    var r := DueDate(Monthly, firstRepayDate, repayDay, 0);
    SameMonth(r, firstRepayDate);
  }

  /** Day numbers of the dates in the example above. */
  lemma ExampleDates()
    ensures Ord(Date(2022, 2, 1)) == Ord(Date(2022, 1, 25)) + 7
    ensures Ord(Date(2022, 3, 1)) == Ord(Date(2022, 1, 25)) + 35
    ensures Ord(Date(2022, 3, 15)) == Ord(Date(2022, 3, 1)) + 14
    ensures Ord(Date(2022, 3, 14)) == Ord(Date(2022, 3, 1)) + 13
    ensures Ord(Date(2022, 4, 1)) == Ord(Date(2022, 3, 1)) + 31
  {
  }

  /** Repay day 1 of February, March and April 2022. */
  lemma ExampleMonthStarts()
    ensures MonthIndex(Date(2022, 1, 25)) == 24264 && MonthIndex(Date(2022, 3, 1)) == 24266
    ensures PinnedDate(24265, 1) == Date(2022, 2, 1)
    ensures PinnedDate(24266, 1) == Date(2022, 3, 1)
    ensures PinnedDate(24267, 1) == Date(2022, 4, 1)
  {
    assert MonthStart(24265) == Date(2022, 2, 1);
    assert MonthStart(24266) == Date(2022, 3, 1);
    assert MonthStart(24267) == Date(2022, 4, 1);
  }

  /** A candidate in the next month that comes within 20 days of the start is passed over for the month after. */
  lemma CloseCandidateBumped(repayDay: int, start: Date)
    requires ValidDate(start) && repayDay <= start.day
    requires Ord(PinnedDate(MonthIndex(start) + 1, repayDay)) - Ord(start) < 20
    ensures FirstRepayDateMonthly(repayDay, start) == PinnedDate(MonthIndex(start) + 2, repayDay)
  {
    var c := DateAddMonth(start, 1, repayDay);
    assert MonthIndex(c) + 1 == MonthIndex(start) + 2;
  }

  /** February 1st is only a week after the start, so the first repay date moves on to March 1st. */
  lemma ExampleFirstRepayDate()
    ensures FirstRepayDateMonthly(1, Date(2022, 1, 25)) == Date(2022, 3, 1)
  {
    ExampleDates();
    ExampleMonthStarts();
    CloseCandidateBumped(1, Date(2022, 1, 25));
  }

  /** Counted from the start, the steps are February 1st, March 1st and April 1st: three periods. */
  lemma ExamplePeriodCount()
    ensures IsPeriodCount(Monthly, Date(2022, 1, 25), Date(2022, 3, 15), 1, 3)
  {
    ExampleDates();
    ExampleMonthStarts();
    assert DueDate(Monthly, Date(2022, 1, 25), 1, 1) == Date(2022, 2, 1);
    assert DueDate(Monthly, Date(2022, 1, 25), 1, 2) == Date(2022, 3, 1);
    assert DueDate(Monthly, Date(2022, 1, 25), 1, 3) == Date(2022, 4, 1);
  }

  /** The last window starts on the due date after March 1st and ends the day before March 15th. */
  lemma ExampleLastWindow(p: PlanRequest)
    requires p.loanCycle == Monthly && p.repayDay == 1 && p.totalPeriodNum == 3
    requires p.loanStartDate == Date(2022, 1, 25) && p.loanEndDate == Date(2022, 3, 15)
    requires p.firstRepayDate == Date(2022, 3, 1)
    ensures WindowOf(p, 2).accrualStart == Date(2022, 4, 1) && WindowOf(p, 2).accrualEnd == Date(2022, 3, 14)
  {
    ExampleMonthStarts();
    assert RepayDateOf(p, 1) == Date(2022, 4, 1);
    var end := AddDate(p.loanEndDate, 0, 0, -1);
    assert Ord(Date(2022, 3, 15)) == Ord(Date(2022, 3, 14)) + 1;
    OrdInjective(end, Date(2022, 3, 14));
  }

  /**
   * With the end date derived from the plan's own period count, every window
   * after the first starts on a repay date strictly before its own, so it
   * counts at least one day; the last one included.
   */
  lemma EndDateKeepsWindowsForward(p: PlanRequest, loanCycleCode: string)
    requires ValidPlan(p) && p.totalPeriodNum >= 2
    requires CycleOf(loanCycleCode) == Some(p.loanCycle)
    requires p.loanEndDate == LoanEndDateFor(loanCycleCode, p.firstRepayDate, p.totalPeriodNum - 1, p.repayDay)
    ensures forall i :: 1 <= i < p.totalPeriodNum ==>
              Ord(WindowOf(p, i).accrualStart) <= Ord(WindowOf(p, i).accrualEnd) &&
              DaysBetween(WindowOf(p, i).accrualStart, WindowOf(p, i).accrualEnd) >= 1
  {
    assert p.loanEndDate == DueDate(p.loanCycle, p.firstRepayDate, p.repayDay, p.totalPeriodNum - 1);
    forall i | 1 <= i < p.totalPeriodNum
      ensures Ord(WindowOf(p, i).accrualStart) <= Ord(WindowOf(p, i).accrualEnd)
    {
      WindowForward(p, i);
    }
  }

  /** Window `i` (after the first) of a plan whose repay dates are all due dates starts before it is repaid. */
  lemma WindowForward(p: PlanRequest, i: int)
    requires ValidPlan(p) && 1 <= i < p.totalPeriodNum
    requires p.loanEndDate == DueDate(p.loanCycle, p.firstRepayDate, p.repayDay, p.totalPeriodNum - 1)
    ensures Ord(WindowOf(p, i).accrualStart) <= Ord(WindowOf(p, i).accrualEnd)
  {
    WindowAfter(p, i);
    RepayDateIsDue(p, i);
    if i == 1 {
      DueDateIncreasing(p.loanCycle, p.firstRepayDate, p.repayDay, 0, i);
      assert Ord(WindowOf(p, i).accrualStart) == Ord(p.firstRepayDate);
      assert Ord(p.firstRepayDate) < Ord(RepayDateOf(p, i));
    } else {
      LaterWindowForward(p, i);
    }
  }

  /** A window after the second starts no later than it ends, when the end date is the last due date. */
  lemma LaterWindowForward(p: PlanRequest, i: int)
    requires ValidPlan(p) && 2 <= i < p.totalPeriodNum
    requires p.loanEndDate == DueDate(p.loanCycle, p.firstRepayDate, p.repayDay, p.totalPeriodNum - 1)
    ensures Ord(WindowOf(p, i).accrualStart) <= Ord(WindowOf(p, i).accrualEnd)
  {
    var before := DueDate(p.loanCycle, p.firstRepayDate, p.repayDay, i - 1);
    var due := DueDate(p.loanCycle, p.firstRepayDate, p.repayDay, i);
    DueDateIncreasing(p.loanCycle, p.firstRepayDate, p.repayDay, i - 1, i);
    assert Ord(before) < Ord(due);
    assert WindowOf(p, i).accrualStart == before by {
      RepayDateIsDue(p, i - 1);
    }
    assert Ord(WindowOf(p, i).accrualEnd) + 1 == Ord(due) by {
      RepayDateIsDue(p, i);
    }
  }

  /** The repay date of a period strictly between the first and the last is its due date. */
  lemma MiddleRepayDate(p: PlanRequest, i: int)
    requires ValidPlan(p) && 1 <= i < p.totalPeriodNum - 1
    ensures RepayDateOf(p, i) == DueDate(p.loanCycle, p.firstRepayDate, p.repayDay, i)
  {
  }

  /** The repay date of the last of two or more periods is the loan end date. */
  lemma LastRepayDate(p: PlanRequest)
    requires ValidPlan(p) && p.totalPeriodNum >= 2
    ensures RepayDateOf(p, p.totalPeriodNum - 1) == p.loanEndDate
  {
  }

  /** Every repay date after the first is a due date when the end date is the last one. */
  lemma RepayDateIsDue(p: PlanRequest, i: int)
    requires ValidPlan(p) && 1 <= i < p.totalPeriodNum
    requires p.loanEndDate == DueDate(p.loanCycle, p.firstRepayDate, p.repayDay, p.totalPeriodNum - 1)
    ensures RepayDateOf(p, i) == DueDate(p.loanCycle, p.firstRepayDate, p.repayDay, i)
  {
  }

  /**
   * calculatePeriodInterestRate: the yearly percentage rate per fortnight (26
   * a year) or per month (12 a year) as a fraction; 0 for the other cycles.
   */
  function PeriodInterestRate(interestRate: real, loanCycleCode: string): (r: real)
    ensures loanCycleCode == LoanCycleFortnightly ==> r * (NumberOfWeek as real) * 100.0 == interestRate
    ensures loanCycleCode == LoanCycleMonthly ==> r * (NumberOfMonth as real) * 100.0 == interestRate
    ensures CycleOf(loanCycleCode).None? ==> r == 0.0
  {
    if loanCycleCode == LoanCycleFortnightly then interestRate / (NumberOfWeek as real) / 100.0
    else if loanCycleCode == LoanCycleMonthly then interestRate / (NumberOfMonth as real) / 100.0
    else 0.0
  }

  /** calculateDaysInterestRate: the yearly percentage rate per day, as a fraction. */
  function DaysInterestRate(interestRate: real, daysOfYear: int): (r: real)
    requires daysOfYear != 0
    ensures r * (daysOfYear as real) * 100.0 == interestRate
  {
    interestRate / (daysOfYear as real) / 100.0
  }

  /** getDaysBetweenDate: the days from `startDate` to `endDate`, both included. */
  function DaysBetween(startDate: Date, endDate: Date): (r: int)
    requires ValidDate(startDate) && ValidDate(endDate)
    ensures r >= 1 <==> Ord(startDate) <= Ord(endDate)
  {
    Ord(endDate) - Ord(startDate) + 1
  }

  /** Counting one day fewer than DaysBetween forward from the start date reaches the end date. */
  lemma DaysBetweenCounts(startDate: Date, endDate: Date)
    requires ValidDate(startDate) && ValidDate(endDate)
    ensures AddDays(startDate, DaysBetween(startDate, endDate) - 1) == endDate
  {
    var n := DaysBetween(startDate, endDate) - 1;
    AddDaysReaches(startDate, endDate, n);
  }

  /**
   * The repay date of period `i` (from 0) of a plan: the first repay date,
   * then the cycle's due dates, and the loan end date for the last period
   * when there is more than one.
   */
  function RepayDateOf(p: PlanRequest, i: int): (r: Date)
    requires ValidPlan(p)
    ensures ValidDate(r)
    ensures 1 <= i != p.totalPeriodNum - 1 ==> Ord(p.firstRepayDate) < Ord(r)
  {
    if i == 0 then p.firstRepayDate
    else if i == p.totalPeriodNum - 1 then p.loanEndDate
    else
      var r := DueDate(p.loanCycle, p.firstRepayDate, p.repayDay, i);
      assert 1 <= i ==> Ord(p.firstRepayDate) < Ord(r) by {
        if 1 <= i {
          DueDateIncreasing(p.loanCycle, p.firstRepayDate, p.repayDay, 0, i);
        }
      }
      r
  }

  /** The window of period `i`: accrual from the previous repay date (the loan start for the first) to the day before its own. */
  function WindowOf(p: PlanRequest, i: int): (r: Window)
    requires ValidPlan(p)
    ensures ValidDate(r.accrualStart) && ValidDate(r.accrualEnd) && ValidDate(r.repayDate)
    ensures r.repayDate == RepayDateOf(p, i) && Ord(r.accrualEnd) + 1 == Ord(r.repayDate)
    ensures r.accrualStart == if i == 0 then p.loanStartDate else RepayDateOf(p, i - 1)
  {
    Window(if i == 0 then p.loanStartDate else RepayDateOf(p, i - 1),
           AddDate(RepayDateOf(p, i), 0, 0, -1),
           RepayDateOf(p, i))
  }

  /** The windows of all the periods of a plan. */
  function Windows(p: PlanRequest): (ws: seq<Window>)
    requires ValidPlan(p)
    ensures |ws| == PeriodCount(p) && ValidWindows(ws)
    ensures forall i :: 0 <= i < |ws| ==> ws[i] == WindowOf(p, i)
  {
    seq(PeriodCount(p), i requires 0 <= i => WindowOf(p, i))
  }

  /** Appending the next window keeps the windows those of the plan. */
  lemma WindowsExtend(p: PlanRequest, windows: seq<Window>, w: Window)
    requires ValidPlan(p)
    requires forall k :: 0 <= k < |windows| ==> windows[k] == WindowOf(p, k)
    requires w == WindowOf(p, |windows|)
    ensures forall k :: 0 <= k < |windows| + 1 ==> (windows + [w])[k] == WindowOf(p, k)
  {
    forall k | 0 <= k < |windows| + 1
      ensures (windows + [w])[k] == WindowOf(p, k)
    {
      if k < |windows| {
        assert (windows + [w])[k] == windows[k];
      }
    }
  }

  /**
   * calculatePeriodDate: one window per period, each starting where the
   * previous one was repaid and ending the day before its own repay date.
   */
  method CalculatePeriodDate(p: PlanRequest) returns (dateMap: seq<Window>)
    requires ValidPlan(p)
    ensures |dateMap| == PeriodCount(p)
    ensures dateMap == Windows(p)
    ensures forall i :: 0 <= i < |dateMap| ==> dateMap[i] == WindowOf(p, i)
    ensures |dateMap| >= 1 ==> dateMap[0].accrualStart == p.loanStartDate && dateMap[0].repayDate == p.firstRepayDate
    ensures forall i :: 1 <= i < |dateMap| ==> dateMap[i].accrualStart == dateMap[i - 1].repayDate
    ensures forall i :: 1 <= i < |dateMap| - 1 ==> dateMap[i].repayDate == DueDate(p.loanCycle, p.firstRepayDate, p.repayDay, i)
    ensures |dateMap| >= 2 ==> dateMap[|dateMap| - 1].repayDate == p.loanEndDate
    ensures forall i :: 0 <= i < |dateMap| ==>
              ValidDate(dateMap[i].accrualEnd) && ValidDate(dateMap[i].repayDate) &&
              Ord(dateMap[i].accrualEnd) + 1 == Ord(dateMap[i].repayDate)
  {
    dateMap := [];
    var i := 0;
    while i < p.totalPeriodNum
      invariant 0 <= i <= PeriodCount(p)
      invariant |dateMap| == i
      invariant forall k :: 0 <= k < i ==> dateMap[k] == WindowOf(p, k)
    {
      var periodStartDate: Date;
      var periodRepayDate: Date;
      if i == 0 {
        periodStartDate := p.loanStartDate;
        periodRepayDate := p.firstRepayDate;
      } else {
        match p.loanCycle {
          case Fortnightly =>
            periodStartDate := dateMap[i - 1].repayDate;
            periodRepayDate := AddDate(p.firstRepayDate, 0, 0, i * 14);
          case Monthly =>
            periodRepayDate := DateAddMonth(p.firstRepayDate, i, p.repayDay);
            periodStartDate := dateMap[i - 1].repayDate;
        }
        if i == p.totalPeriodNum - 1 {
          periodRepayDate := p.loanEndDate;
        }
      }
      var periodEndDate := AddDate(periodRepayDate, 0, 0, -1);
      assert periodRepayDate == RepayDateOf(p, i);
      assert Window(periodStartDate, periodEndDate, periodRepayDate) == WindowOf(p, i);
      WindowsExtend(p, dateMap, Window(periodStartDate, periodEndDate, periodRepayDate));
      dateMap := dateMap + [Window(periodStartDate, periodEndDate, periodRepayDate)];
      i := i + 1;
    }
  }
}
