/**
 * Interest with principal, one period (plan/bothPrincipalAndInterest.go): the
 * whole loan and all its interest fall due on the loan end date, in a plan of
 * a single record.
 */
module BothPrincipalAndInterest {
  import opened Wrappers
  import opened Decimal
  import opened Calendar
  import opened Structs
  import opened Util
  import opened Schedule

  /** A request date as the plan reads it: the parsed date, Go's zero time when it does not parse. */
  function ParseOrZero(t: DateText): (r: Date)
    ensures ValidDate(r)
    ensures Parse(t).Some? ==> r == t.date
    ensures Parse(t).None? ==> r == ZeroTime
  {
    match Parse(t)
    case Some(d) => d
    case None => ZeroTime
  }

  /**
   * The single window: interest accrues from the start date to the day
   * before the end date, which is the repay date.
   */
  function SinglePeriodWindow(loanStartDate: DateText, loanEndDate: DateText): (w: Window)
    ensures ValidWindows([w])
  {
    var end := ParseOrZero(loanEndDate);
    Window(ParseOrZero(loanStartDate), AddDate(end, 0, 0, -1), end)
  }

  /**
   * The single record over window `w` of `days` days: interest on the whole
   * loan at `daysInterestRate`, to the cent, and the whole loan repaid.
   */
  function BothPrincipalAndInterestRecord(loanAmount: real, daysInterestRate: real, w: Window, days: int): (r: Record)
    ensures OverWindow(w, days, 0, r)
    ensures IsCents(r.interest) && -0.005 <= r.interest - AccruedInterest(loanAmount, daysInterestRate, days) <= 0.005
    ensures r.principal == loanAmount && r.maintainPrincipal == 0.0
    ensures r.totalAmount == loanAmount + r.interest
  {
    var totalInterest := Round(AccruedInterest(loanAmount, daysInterestRate, days));
    RecordOver(w, days, 0, totalInterest + loanAmount, loanAmount, totalInterest, 0.0)
  }

  /**
   * The window starts on the start date and is repaid on the end date; it
   * ends the day before, so its day count is the number of days from start
   * to end, and counting that many days from the start reaches the end date.
   * When the end date lies after the start date, as the request guard
   * demands, the window has at least one day.
   */
  lemma SinglePeriodWindowDays(loanStartDate: DateText, loanEndDate: DateText)
    ensures var w := SinglePeriodWindow(loanStartDate, loanEndDate);
      && w.accrualStart == ParseOrZero(loanStartDate) && w.repayDate == ParseOrZero(loanEndDate)
      && Ord(w.accrualEnd) + 1 == Ord(w.repayDate)
      && WindowDays(w) == Ord(w.repayDate) - Ord(w.accrualStart)
      && AddDays(w.accrualStart, WindowDays(w)) == w.repayDate
      && (Ord(w.accrualStart) < Ord(w.repayDate) ==> WindowDays(w) >= 1)
  {
    var start, end := ParseOrZero(loanStartDate), ParseOrZero(loanEndDate);
    var w := SinglePeriodWindow(loanStartDate, loanEndDate);
    assert w == Window(start, AddDate(end, 0, 0, -1), end);
    WindowDaysToRepayDate(w);
  }

  /** A window ending the day before its repay date counts the days from its start to the repay date. */
  lemma WindowDaysToRepayDate(w: Window)
    requires ValidDate(w.accrualStart) && ValidDate(w.accrualEnd) && ValidDate(w.repayDate)
    requires Ord(w.accrualEnd) + 1 == Ord(w.repayDate)
    ensures WindowDays(w) == Ord(w.repayDate) - Ord(w.accrualStart)
    ensures AddDays(w.accrualStart, WindowDays(w)) == w.repayDate
  {
    var n := Ord(w.repayDate) - Ord(w.accrualStart);
    assert WindowDays(w) == n;
    AddDaysReaches(w.accrualStart, w.repayDate, n);
  }

  /**
   * The record is period 1 over its window and days; its interest is the
   * whole loan's interest at the daily rate over those days, to the nearest
   * cent.
   */
  lemma BothPrincipalAndInterestInterest(loanAmount: real, daysInterestRate: real, w: Window, days: int)
    ensures var r := BothPrincipalAndInterestRecord(loanAmount, daysInterestRate, w, days);
      && OverWindow(w, days, 0, r)
      && IsCents(r.interest)
      && -0.005 <= r.interest - loanAmount * daysInterestRate * days as real <= 0.005
  {
  }

  /**
   * The record settles the loan: it repays the whole loan, leaves nothing
   * owed and is due its interest plus the loan, so as a schedule it reduces
   * the balance to zero and its totals are its own amounts.
   */
  lemma BothPrincipalAndInterestCloses(loanAmount: real, daysInterestRate: real, w: Window, days: int)
    ensures var r := BothPrincipalAndInterestRecord(loanAmount, daysInterestRate, w, days);
      && ReducesBalance(loanAmount, [r]) && TotalsSplit([r])
      && r.principal == loanAmount && r.maintainPrincipal == 0.0
      && SumPrincipal([r]) == loanAmount
      && SumInterest([r]) == r.interest
      && SumTotal([r]) == r.interest + loanAmount
  {
    var r := BothPrincipalAndInterestRecord(loanAmount, daysInterestRate, w, days);
    SumsAppend([], r);
    assert [] + [r] == [r];
  }

  /**
   * bothPrincipalAndInterest: a fresh one-period response holding the single
   * record, its totals the record's interest and amount due, and the
   * request's terms.
   */
  method BothPrincipalAndInterestPlan(request: Request) returns (response: Response)
    requires request.daysOfYear != 0
    ensures fresh(response)
    ensures var w := SinglePeriodWindow(old(request.loanStartDate), old(request.loanEndDate));
            response.planRepayRecords ==
              [BothPrincipalAndInterestRecord(old(request.loanAmount), DaysInterestRate(old(request.interestRate), old(request.daysOfYear)),
                                              w, WindowDays(w))]
    ensures response.totalPeriodNum == 1
    ensures response.totalInterest == SumInterest(response.planRepayRecords)
    ensures response.totalRepayAmount == SumTotal(response.planRepayRecords)
    ensures response.repayMethod == request.repayMethod && response.loanAmount == request.loanAmount
    ensures response.loanStartDate == request.loanStartDate && response.loanEndDate == request.loanEndDate
    ensures response.interestRate == request.interestRate
  {
    var daysInterestRate := DaysInterestRate(request.interestRate, request.daysOfYear);
    var window := SinglePeriodWindow(request.loanStartDate, request.loanEndDate);
    var daysOfPeriod := WindowDays(window);
    var record := BothPrincipalAndInterestRecord(request.loanAmount, daysInterestRate, window, daysOfPeriod);
    var totalInterest, totalAmount := record.interest, record.totalAmount;
    response := new Response(request.repayMethod, request.loanStartDate, request.loanEndDate, 1,
                             request.loanAmount, request.interestRate);
    response.totalRepayAmount := totalAmount;
    response.totalInterest := totalInterest;
    response.planRepayRecords := [record];
    SumsAppend([], record);
    assert [] + [record] == [record];
  }
}
