/**
 * The request, response, schedule record and internal plan parameters of the
 * plan (plan/struct.go), the errors it reports, and the sums over a schedule
 * that become the response totals.
 */
module Structs {
  import opened Calendar

  /** The errors the plan reports; the comment gives the source's message. */
  datatype Error =
    | InterestRateError          // "interest Rate error"
    | LoanAmountError            // "loan Amount error"
    | LoanCycleCodeError         // "loan Cycle Code error"
    | PeriodNumError             // "period Num error"
    | StartDateEmpty             // "interest Calculate Start Date can not be empty"
    | StartDateError             // "interest Calculate Start Date error"
    | EndDateError               // "interest Calculate End Date error"
    | StartNotBeforeEnd          // "loan Start Date can not after or equal than loan end date"
    | RepayDayError              // "repay Day error"
    | PeriodTypeError            // "period type error"
    | EndDateAndPeriodNumEmpty   // "loanEndDate and periodNum can not be empty at the same time"
    | EndDateEmpty               // "interest Calculate End Date can not be empty"
    | RepayMethodError           // "repay method error"
    | EndDateFormatError         // "loanEndDate date format error: ..."
    | StartDateFormatError       // "loanStartDate date format error: ..."
    | UnsupportedCycle           // a cycle with no date rule (daily, quarterly, yearly)

  /** The caller's loan terms; `check` and `getLoanEndDate` rewrite two fields in place. */
  class Request {
    var loanAmount: real
    var loanStartDate: DateText
    var loanEndDate: DateText
    var loanCycleCode: string
    var interestRate: real       // yearly, in percent
    var repayMethod: string
    var periodNum: int
    var periodType: string
    var repayDay: int
    var daysOfYear: int

    constructor (loanAmount: real, loanStartDate: DateText, loanEndDate: DateText,
                 loanCycleCode: string, interestRate: real, repayMethod: string,
                 periodNum: int, periodType: string, repayDay: int, daysOfYear: int)
      ensures this.loanAmount == loanAmount && this.loanStartDate == loanStartDate
      ensures this.loanEndDate == loanEndDate && this.loanCycleCode == loanCycleCode
      ensures this.interestRate == interestRate && this.repayMethod == repayMethod
      ensures this.periodNum == periodNum && this.periodType == periodType
      ensures this.repayDay == repayDay && this.daysOfYear == daysOfYear
    {
      this.loanAmount := loanAmount;
      this.loanStartDate := loanStartDate;
      this.loanEndDate := loanEndDate;
      this.loanCycleCode := loanCycleCode;
      this.interestRate := interestRate;
      this.repayMethod := repayMethod;
      this.periodNum := periodNum;
      this.periodType := periodType;
      this.repayDay := repayDay;
      this.daysOfYear := daysOfYear;
    }
  }

  /** One line of a repayment schedule. */
  datatype Record = Record(
    periodNum: int,
    startDate: Date,          // first day of interest accrual
    endDate: Date,            // last day of interest accrual
    days: int,                // accrual days, both ends included
    repayDate: Date,
    totalAmount: real,        // amount due on the repay date
    principal: real,
    interest: real,
    maintainPrincipal: real)  // principal still owed after this period

  /** The schedule returned to the caller; the strategies fill in its last three fields. */
  class Response {
    var repayMethod: string
    var loanStartDate: DateText
    var loanEndDate: DateText
    var totalPeriodNum: int
    var totalRepayAmount: real
    var loanAmount: real
    var totalInterest: real
    var interestRate: real
    var planRepayRecords: seq<Record>

    constructor (repayMethod: string, loanStartDate: DateText, loanEndDate: DateText,
                 totalPeriodNum: int, loanAmount: real, interestRate: real)
      ensures this.repayMethod == repayMethod && this.loanStartDate == loanStartDate
      ensures this.loanEndDate == loanEndDate && this.totalPeriodNum == totalPeriodNum
      ensures this.loanAmount == loanAmount && this.interestRate == interestRate
      ensures totalRepayAmount == 0.0 && totalInterest == 0.0 && planRepayRecords == []
    {
      this.repayMethod := repayMethod;
      this.loanStartDate := loanStartDate;
      this.loanEndDate := loanEndDate;
      this.totalPeriodNum := totalPeriodNum;
      this.totalRepayAmount := 0.0;
      this.loanAmount := loanAmount;
      this.totalInterest := 0.0;
      this.interestRate := interestRate;
      this.planRepayRecords := [];
    }
  }

  /** The two cycles that have a date rule. */
  datatype Cycle = Fortnightly | Monthly

  /** The resolved parameters shared by the four periodic strategies. */
  datatype PlanRequest = PlanRequest(
    loanAmount: real,
    loanCycle: Cycle,
    periodInterestRate: real,
    totalPeriodNum: int,
    firstRepayDate: Date,
    loanStartDate: Date,
    loanEndDate: Date,
    repayDay: int,
    daysInterestRate: real)

  /** The plan's dates are real calendar dates. */
  predicate ValidPlan(p: PlanRequest) {
    && ValidDate(p.firstRepayDate)
    && ValidDate(p.loanStartDate)
    && ValidDate(p.loanEndDate)
  }

  /** The number of periods a loop up to `totalPeriodNum` runs. */
  function PeriodCount(p: PlanRequest): nat {
    if p.totalPeriodNum < 0 then 0 else p.totalPeriodNum
  }

  /** The interest accrual window and repay date of one period. */
  datatype Window = Window(accrualStart: Date, accrualEnd: Date, repayDate: Date)

  /** Every date of every window is a calendar date. */
  predicate ValidWindows(ws: seq<Window>) {
    forall i :: 0 <= i < |ws| ==>
      ValidDate(ws[i].accrualStart) && ValidDate(ws[i].accrualEnd) && ValidDate(ws[i].repayDate)
  }

  /** Amounts due over a schedule. */
  function SumTotal(recs: seq<Record>): real {
    if recs == [] then 0.0 else SumTotal(recs[..|recs| - 1]) + recs[|recs| - 1].totalAmount
  }

  /** Interest over a schedule. */
  function SumInterest(recs: seq<Record>): real {
    if recs == [] then 0.0 else SumInterest(recs[..|recs| - 1]) + recs[|recs| - 1].interest
  }

  /** Principal over a schedule. */
  function SumPrincipal(recs: seq<Record>): real {
    if recs == [] then 0.0 else SumPrincipal(recs[..|recs| - 1]) + recs[|recs| - 1].principal
  }

  /** Extending a schedule by one record extends each sum by that record's amount. */
  lemma SumsAppend(recs: seq<Record>, r: Record)
    ensures SumTotal(recs + [r]) == SumTotal(recs) + r.totalAmount
    ensures SumInterest(recs + [r]) == SumInterest(recs) + r.interest
    ensures SumPrincipal(recs + [r]) == SumPrincipal(recs) + r.principal
  {
    assert (recs + [r])[..|recs|] == recs;
  }
}
