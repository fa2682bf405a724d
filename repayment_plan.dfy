/**
 * The entry point of the plan (plan/calculate_repayment_plan.go): the request
 * guard, which rejects a request by the first rule it breaks, the shared
 * parameter preparation of the four periodic methods, and the dispatch on the
 * repayment method code.
 */
module RepaymentPlan {
  import opened Wrappers
  import opened Calendar
  import Constants
  import opened Structs
  import opened Util
  import opened Schedule
  import opened FixedInstallment
  import opened FixedPrincipal
  import opened BothPrincipalAndInterest
  import opened BeforeInterestAfterPrincipal
  import opened EqualPrincipalAndInterest

  /** checkLoanCycleCode: only the five cycle codes of the code table pass. */
  function CheckLoanCycleCode(loanCycleCode: string): (r: Option<Error>)
    ensures r == None || r == Some(LoanCycleCodeError)
    ensures r == None <==> loanCycleCode in {Constants.LoanCycleDaily, Constants.LoanCycleFortnightly, Constants.LoanCycleMonthly,
                                             Constants.LoanCycleQuarterly, Constants.LoanCycleYearly}
  {
    if loanCycleCode == Constants.LoanCycleDaily || loanCycleCode == Constants.LoanCycleFortnightly
       || loanCycleCode == Constants.LoanCycleMonthly || loanCycleCode == Constants.LoanCycleQuarterly
       || loanCycleCode == Constants.LoanCycleYearly
    then None
    else Some(LoanCycleCodeError)
  }

  /** checkPeriodType: only the year and month period types pass. */
  function CheckPeriodType(periodType: string): (r: Option<Error>)
    ensures r == None || r == Some(PeriodTypeError)
    ensures r == None <==> periodType in {Constants.PeriodTypeYear, Constants.PeriodTypeMonth}
  {
    if periodType == Constants.PeriodTypeYear || periodType == Constants.PeriodTypeMonth then None
    else Some(PeriodTypeError)
  }

  /** Every cycle code that has a date rule passes the cycle code guard. */
  lemma DatedCyclesPassGuard(loanCycleCode: string)
    ensures CycleOf(loanCycleCode).Some? ==> CheckLoanCycleCode(loanCycleCode) == None
    ensures CheckLoanCycleCode(loanCycleCode) == None && CycleOf(loanCycleCode).None? ==>
              loanCycleCode in {Constants.LoanCycleDaily, Constants.LoanCycleQuarterly, Constants.LoanCycleYearly}
  {
  }

  /** The four methods that share the parameter preparation and the period windows. */
  predicate IsPeriodicMethod(repayMethod: string) {
    repayMethod in {Constants.EqualLoanRepayment, Constants.EqualPrincipalRepayment,
                    Constants.BeforeInterestAfterPrincipal, Constants.EqualPrincipalAndInterest}
  }

  /** The first two guards pass: a positive interest rate and a positive loan. */
  predicate AmountsValid(request: Request)
    reads request`interestRate, request`loanAmount
  {
    request.interestRate > 0.0 && request.loanAmount > 0.0
  }

  /** The guards up to the period count pass. */
  predicate TermsValid(request: Request)
    reads request`interestRate, request`loanAmount, request`loanCycleCode, request`periodNum
  {
    && AmountsValid(request)
    && CheckLoanCycleCode(request.loanCycleCode) == None
    && request.periodNum >= 0
  }

  /** The guards up to the dates pass: the start date parses, and the end date is absent or parses and lies after it. */
  predicate DatesValid(request: Request)
    reads request`interestRate, request`loanAmount, request`loanCycleCode, request`periodNum
    reads request`loanStartDate, request`loanEndDate
  {
    && TermsValid(request)
    && Parse(request.loanStartDate).Some?
    && (request.loanEndDate == Blank ||
        (Parse(request.loanEndDate).Some? && Ord(request.loanStartDate.date) < Ord(request.loanEndDate.date)))
  }

  /** The guards up to the period type pass. */
  predicate FieldsValid(request: Request)
    reads request`interestRate, request`loanAmount, request`loanCycleCode, request`periodNum
    reads request`loanStartDate, request`loanEndDate, request`repayDay, request`periodType
  {
    && DatesValid(request)
    && 1 <= request.repayDay <= 31
    && CheckPeriodType(request.periodType) == None
  }

  /**
   * Every guard of `check` passes: the periodic methods have a period count
   * or an end date, the one-period method has an end date.
   */
  predicate Checked(request: Request)
    reads request`interestRate, request`loanAmount, request`loanCycleCode, request`periodNum
    reads request`loanStartDate, request`loanEndDate, request`repayDay, request`periodType, request`repayMethod
  {
    && FieldsValid(request)
    && (IsPeriodicMethod(request.repayMethod) ==> request.periodNum != 0 || request.loanEndDate != Blank)
    && (request.repayMethod == Constants.BothPrincipalAndInterest ==> request.loanEndDate != Blank)
  }

  /**
   * check: sets a missing days-of-year to 360, then rejects the request with
   * the error of the first guard it breaks, in the source's order, and
   * accepts it when it breaks none.
   */
  method Check(request: Request) returns (err: Option<Error>)
    modifies request`daysOfYear
    ensures request.daysOfYear == if old(request.daysOfYear) == 0 then Constants.DaysOfYear else old(request.daysOfYear)
    ensures err == Some(InterestRateError) <==> request.interestRate <= 0.0
    ensures err == Some(LoanAmountError) <==> request.interestRate > 0.0 && request.loanAmount <= 0.0
    ensures err == Some(LoanCycleCodeError) <==> AmountsValid(request) && CheckLoanCycleCode(request.loanCycleCode).Some?
    ensures err == Some(PeriodNumError) <==>
              AmountsValid(request) && CheckLoanCycleCode(request.loanCycleCode) == None && request.periodNum < 0
    ensures err == Some(StartDateEmpty) <==> TermsValid(request) && request.loanStartDate == Blank
    ensures err == Some(StartDateError) <==>
              TermsValid(request) && request.loanStartDate != Blank && Parse(request.loanStartDate).None?
    ensures err == Some(EndDateError) <==>
              TermsValid(request) && Parse(request.loanStartDate).Some? &&
              request.loanEndDate != Blank && Parse(request.loanEndDate).None?
    ensures err == Some(StartNotBeforeEnd) <==>
              TermsValid(request) && Parse(request.loanStartDate).Some? && Parse(request.loanEndDate).Some? &&
              Ord(request.loanEndDate.date) <= Ord(request.loanStartDate.date)
    ensures err == Some(RepayDayError) <==> DatesValid(request) && !(1 <= request.repayDay <= 31)
    ensures err == Some(PeriodTypeError) <==>
              DatesValid(request) && 1 <= request.repayDay <= 31 && CheckPeriodType(request.periodType).Some?
    ensures err == Some(EndDateAndPeriodNumEmpty) <==>
              FieldsValid(request) && IsPeriodicMethod(request.repayMethod) &&
              request.periodNum == 0 && request.loanEndDate == Blank
    ensures err == Some(EndDateEmpty) <==>
              FieldsValid(request) && request.repayMethod == Constants.BothPrincipalAndInterest && request.loanEndDate == Blank
    ensures err == None <==> Checked(request)
  {
    if request.daysOfYear == 0 {
      request.daysOfYear := Constants.DaysOfYear;
    }
    if request.interestRate <= 0.0 {
      return Some(InterestRateError);
    }
    if request.loanAmount <= 0.0 {
      return Some(LoanAmountError);
    }
    var e := CheckLoanCycleCode(request.loanCycleCode);
    if e.Some? {
      return e;
    }
    if request.periodNum < 0 {
      return Some(PeriodNumError);
    }
    if request.loanStartDate == Blank {
      return Some(StartDateEmpty);
    }
    var loanStartDate := Parse(request.loanStartDate);
    if loanStartDate.None? {
      return Some(StartDateError);
    }
    if request.loanEndDate != Blank {
      var loanEndDate := Parse(request.loanEndDate);
      if loanEndDate.None? {
        return Some(EndDateError);
      }
      if Ord(loanEndDate.value) - Ord(loanStartDate.value) <= 0 {
        return Some(StartNotBeforeEnd);
      }
    }
    if request.repayDay <= 0 || request.repayDay >= 32 {
      return Some(RepayDayError);
    }
    e := CheckPeriodType(request.periodType);
    if e.Some? {
      return e;
    }
    if IsPeriodicMethod(request.repayMethod) {
      if request.periodNum == 0 && request.loanEndDate == Blank {
        return Some(EndDateAndPeriodNumEmpty);
      }
    } else if request.repayMethod == Constants.BothPrincipalAndInterest {
      if request.loanEndDate == Blank {
        return Some(EndDateEmpty);
      }
    }
    return None;
  }

  /**
   * The plan parameters and the rewritten request that prepareGetParameter
   * produces, given the request's end date `oldEnd` before the rewrite: the
   * plan repeats the request's terms, its period count is the requested one
   * (in months when given in years) or the one inferred from the end date,
   * and its end date is the request's end date after the rewrite.
   */
  ghost predicate Prepared(request: Request, oldEnd: DateText, plan: PlanRequest)
    reads request
  {
    && ValidPlan(plan)
    && Some(plan.loanCycle) == CycleOf(request.loanCycleCode)
    && plan.loanAmount == request.loanAmount
    && Parse(request.loanStartDate) == Some(plan.loanStartDate)
    && Parse(request.loanEndDate) == Some(plan.loanEndDate)
    && plan.repayDay == request.repayDay
    && GetFirstRepayDate(oldEnd, request.loanCycleCode, request.repayDay, plan.loanStartDate) == Ok(plan.firstRepayDate)
    && plan.periodInterestRate == PeriodInterestRate(request.interestRate, request.loanCycleCode)
    && request.daysOfYear != 0
    && plan.daysInterestRate == DaysInterestRate(request.interestRate, request.daysOfYear)
    && (request.periodNum != 0 ==>
          plan.totalPeriodNum == if request.periodType == Constants.PeriodTypeYear then 12 * request.periodNum else request.periodNum)
    && (request.periodNum == 0 && Parse(oldEnd).Some? ==>
          plan.totalPeriodNum >= 1 &&
          IsPeriodCount(plan.loanCycle, plan.loanStartDate, oldEnd.date, request.repayDay, plan.totalPeriodNum))
    && (request.periodNum == 0 && oldEnd == Blank ==> plan.totalPeriodNum == 0)
    && ((oldEnd == Blank || request.periodNum != 0) ==>
          request.loanEndDate == Text(LoanEndDateFor(request.loanCycleCode, plan.firstRepayDate, plan.totalPeriodNum - 1, request.repayDay)))
    && (oldEnd != Blank && request.periodNum == 0 ==> request.loanEndDate == oldEnd)
  }

  /**
   * When the end date is derived from the period count, every window of a
   * plan of two or more periods after the first counts at least one day:
   * the derived end date is the due date of the plan's own last period.
   */
  lemma PreparedWindowsForward(request: Request, oldEnd: DateText, plan: PlanRequest)
    requires Prepared(request, oldEnd, plan) && (oldEnd == Blank || request.periodNum != 0) && plan.totalPeriodNum >= 2
    ensures forall i :: 1 <= i < plan.totalPeriodNum ==>
              DaysBetween(WindowOf(plan, i).accrualStart, WindowOf(plan, i).accrualEnd) >= 1
  {
    var end := LoanEndDateFor(request.loanCycleCode, plan.firstRepayDate, plan.totalPeriodNum - 1, request.repayDay);
    assert Parse(Text(end)) == Some(end);
    EndDateKeepsWindowsForward(plan, request.loanCycleCode);
  }

  /**
   * The first window of a prepared plan counts at least one day when the
   * repay day is at least 1 and a given end date lies after the start, as
   * `check` demands.
   */
  lemma PreparedFirstWindowForward(request: Request, oldEnd: DateText, plan: PlanRequest)
    requires Prepared(request, oldEnd, plan) && 1 <= request.repayDay
    requires oldEnd.Text? ==> Ord(plan.loanStartDate) < Ord(oldEnd.date)
    ensures DaysBetween(WindowOf(plan, 0).accrualStart, WindowOf(plan, 0).accrualEnd) >= 1
  {
    FirstWindowForward(plan, oldEnd, request.loanCycleCode);
  }

  /** The response repeats the request's terms (with the rewritten end date) and the plan's period count. */
  predicate Describes(response: Response, request: Request, plan: PlanRequest)
    reads response`repayMethod, response`loanStartDate, response`loanEndDate, response`totalPeriodNum
    reads response`loanAmount, response`interestRate
    reads request`repayMethod, request`loanStartDate, request`loanEndDate, request`loanAmount, request`interestRate
  {
    && response.repayMethod == request.repayMethod
    && response.loanStartDate == request.loanStartDate
    && response.loanEndDate == request.loanEndDate
    && response.totalPeriodNum == plan.totalPeriodNum
    && response.loanAmount == request.loanAmount
    && response.interestRate == request.interestRate
  }

  /**
   * prepareGetParameter: parses the start date, fixes the first repay date
   * and the period count, rewrites the request's end date when it is derived
   * from the period count, and builds the plan parameters and an empty
   * response.
   */
  method PrepareGetParameter(request: Request) returns (r: Result<PlanRequest, Error>, response: Response?)
    requires request.daysOfYear != 0
    modifies request`loanEndDate
    ensures r.Err? <==> response == null
    ensures Parse(request.loanStartDate).None? ==> r == Err(StartDateFormatError) && unchanged(request)
    ensures Parse(request.loanStartDate).Some? ==>
              var first := GetFirstRepayDate(old(request.loanEndDate), request.loanCycleCode, request.repayDay, request.loanStartDate.date);
              && (first.Err? ==> r == Err(first.error) && unchanged(request))
              && (first.Ok? ==> r.Ok? && r.value.firstRepayDate == first.value)
    ensures Parse(request.loanStartDate).Some? && (old(request.loanEndDate) == Blank || Parse(old(request.loanEndDate)).Some?) ==>
              (r.Ok? <==> CycleOf(request.loanCycleCode).Some?) && (r.Err? ==> r == Err(UnsupportedCycle))
    ensures r.Ok? ==> Prepared(request, old(request.loanEndDate), r.value)
    ensures r.Ok? ==> fresh(response) && Describes(response, request, r.value) && response.planRepayRecords == []
  {
    var loanStartDateParseLocal := Parse(request.loanStartDate);
    if loanStartDateParseLocal.None? {
      return Err(StartDateFormatError), null;
    }
    var loanStart := loanStartDateParseLocal.value;
    var firstRepayDate := GetFirstRepayDate(request.loanEndDate, request.loanCycleCode, request.repayDay, loanStart);
    if firstRepayDate.Err? {
      return Err(firstRepayDate.error), null;
    }
    var plan;
    plan, response := PreparePlan(request, loanStart, firstRepayDate.value);
    r := Ok(plan);
  }

  /**
   * The rest of prepareGetParameter, once the start date has parsed and the
   * first repay date is known.
   */
  method PreparePlan(request: Request, loanStart: Date, firstRepayDate: Date) returns (plan: PlanRequest, response: Response)
    requires request.daysOfYear != 0
    requires Parse(request.loanStartDate) == Some(loanStart)
    requires GetFirstRepayDate(request.loanEndDate, request.loanCycleCode, request.repayDay, loanStart) == Ok(firstRepayDate)
    modifies request`loanEndDate
    ensures fresh(response)
    ensures plan.firstRepayDate == firstRepayDate
    ensures Prepared(request, old(request.loanEndDate), plan)
    ensures Describes(response, request, plan) && response.planRepayRecords == []
  {
    ghost var oldEnd := request.loanEndDate;
    var totalPeriodNum := ResolvePeriods(request, loanStart, firstRepayDate);
    var loanEndDateParseLocal := Parse(request.loanEndDate);
    var periodInterestRate := PeriodInterestRate(request.interestRate, request.loanCycleCode);
    var daysInterestRate := DaysInterestRate(request.interestRate, request.daysOfYear);
    response := new Response(request.repayMethod, request.loanStartDate, request.loanEndDate, totalPeriodNum,
                             request.loanAmount, request.interestRate);
    plan := PlanRequest(request.loanAmount, CycleOf(request.loanCycleCode).value, periodInterestRate, totalPeriodNum,
                        firstRepayDate, loanStart, loanEndDateParseLocal.value, request.repayDay, daysInterestRate);
  }

  /**
   * The period count and end date steps of prepareGetParameter: the count
   * from getTotalPeriodNum, 0 when that fails (the source drops the error),
   * then the end date rewrite of getLoanEndDate. The end date always parses
   * afterwards, so the source's error for it cannot arise.
   */
  method ResolvePeriods(request: Request, loanStart: Date, firstRepayDate: Date) returns (totalPeriodNum: int)
    requires Parse(request.loanStartDate) == Some(loanStart)
    requires GetFirstRepayDate(request.loanEndDate, request.loanCycleCode, request.repayDay, loanStart) == Ok(firstRepayDate)
    modifies request`loanEndDate
    ensures CycleOf(request.loanCycleCode).Some? && ValidDate(firstRepayDate)
    ensures request.periodNum != 0 ==>
              totalPeriodNum == if request.periodType == Constants.PeriodTypeYear then 12 * request.periodNum else request.periodNum
    ensures request.periodNum == 0 && Parse(old(request.loanEndDate)).Some? ==>
              totalPeriodNum >= 1 &&
              IsPeriodCount(CycleOf(request.loanCycleCode).value, loanStart, old(request.loanEndDate).date, request.repayDay, totalPeriodNum)
    ensures request.periodNum == 0 && old(request.loanEndDate) == Blank ==> totalPeriodNum == 0
    ensures old(request.loanEndDate) == Blank || request.periodNum != 0 ==>
              request.loanEndDate == Text(LoanEndDateFor(request.loanCycleCode, firstRepayDate, totalPeriodNum - 1, request.repayDay))
    ensures old(request.loanEndDate) != Blank && request.periodNum == 0 ==> request.loanEndDate == old(request.loanEndDate)
    ensures Parse(request.loanEndDate).Some?
  {
    var total := GetTotalPeriodNum(request, loanStart);
    totalPeriodNum := if total.Ok? then total.value else 0;
    GetLoanEndDate(request, firstRepayDate, totalPeriodNum);
  }

  /**
   * The schedule a periodic method computes for the plan `p`, the fixed
   * installment method paying `annuity` per period when its rate is not zero.
   */
  function PeriodicSchedule(repayMethod: string, p: PlanRequest, annuity: real): (recs: seq<Record>)
    requires IsPeriodicMethod(repayMethod) && ValidPlan(p) && p.totalPeriodNum >= 1
    ensures |recs| == p.totalPeriodNum
  {
    var ws := Windows(p);
    var ds := AccrualDays(ws);
    if repayMethod == Constants.EqualLoanRepayment then
      FixedInstallmentSchedule(p, FixedInstallmentAmount(p.loanAmount, p.periodInterestRate, p.totalPeriodNum, annuity), ws, ds, PeriodCount(p))
    else if repayMethod == Constants.EqualPrincipalRepayment then
      FixedPrincipalSchedule(p, ws, ds, PeriodCount(p))
    else if repayMethod == Constants.BeforeInterestAfterPrincipal then
      BeforeInterestAfterPrincipalSchedule(p, ws, ds, PeriodCount(p))
    else
      EqualPrincipalAndInterestSchedule(p, EqualPrincipalAmount(p.loanAmount, p.totalPeriodNum),
                                        EqualInterestAmount(p, DaysBetween(p.loanStartDate, p.loanEndDate)), ws, ds, PeriodCount(p))
  }

  /**
   * getRepaymentPlan on a request that passed `check`: an unknown method code
   * is an error with no response; the one-period method builds its plan from
   * the request; the four periodic methods prepare the plan parameters, which
   * fails only for a cycle without a date rule, and then fill the prepared
   * response with their schedule over at least one period and its totals.
   */
  method GetRepaymentPlan(request: Request, annuity: real) returns (response: Response?, err: Option<Error>, ghost plan: Option<PlanRequest>)
    requires Checked(request) && request.daysOfYear != 0
    modifies request`loanEndDate
    ensures err.Some? <==> response == null
    ensures !IsPeriodicMethod(request.repayMethod) && request.repayMethod != Constants.BothPrincipalAndInterest ==>
              err == Some(RepayMethodError) && unchanged(request)
    ensures request.repayMethod == Constants.BothPrincipalAndInterest ==>
              && err == None && fresh(response) && unchanged(request)
              && response.totalPeriodNum == 1
              && (var w := SinglePeriodWindow(request.loanStartDate, request.loanEndDate);
                  response.planRepayRecords ==
                    [BothPrincipalAndInterestRecord(request.loanAmount, DaysInterestRate(request.interestRate, request.daysOfYear),
                                                    w, WindowDays(w))])
              && response.totalRepayAmount == SumTotal(response.planRepayRecords)
              && response.totalInterest == SumInterest(response.planRepayRecords)
    ensures IsPeriodicMethod(request.repayMethod) ==>
              (err == None <==> CycleOf(request.loanCycleCode).Some?) && (err.Some? ==> err == Some(UnsupportedCycle))
    ensures IsPeriodicMethod(request.repayMethod) && err == None ==>
              && plan.Some? && Prepared(request, old(request.loanEndDate), plan.value)
              && plan.value.totalPeriodNum >= 1
              && fresh(response) && Describes(response, request, plan.value)
              && response.planRepayRecords == PeriodicSchedule(request.repayMethod, plan.value, annuity)
              && response.totalRepayAmount == SumTotal(response.planRepayRecords)
              && response.totalInterest == SumInterest(response.planRepayRecords)
  {
    if IsPeriodicMethod(request.repayMethod) {
      response, err, plan := PeriodicPlan(request, annuity);
    } else if request.repayMethod == Constants.BothPrincipalAndInterest {
      response := BothPrincipalAndInterestPlan(request);
      err, plan := None, None;
    } else {
      return null, Some(RepayMethodError), None;
    }
  }

  /**
   * The two switches of getRepaymentPlan for a periodic method: prepare the
   * plan parameters, then fill the prepared response with the method's
   * schedule.
   */
  method PeriodicPlan(request: Request, annuity: real) returns (response: Response?, err: Option<Error>, ghost plan: Option<PlanRequest>)
    requires IsPeriodicMethod(request.repayMethod) && request.daysOfYear != 0 && request.periodNum >= 0
    requires Parse(request.loanStartDate).Some?
    requires request.loanEndDate == Blank || Parse(request.loanEndDate).Some?
    requires request.periodNum == 0 ==> request.loanEndDate != Blank
    modifies request`loanEndDate
    ensures err.Some? <==> response == null
    ensures (err == None <==> CycleOf(request.loanCycleCode).Some?) && (err.Some? ==> err == Some(UnsupportedCycle))
    ensures err == None ==>
              && plan.Some? && Prepared(request, old(request.loanEndDate), plan.value)
              && plan.value.totalPeriodNum >= 1
              && fresh(response) && Describes(response, request, plan.value)
              && response.planRepayRecords == PeriodicSchedule(request.repayMethod, plan.value, annuity)
              && response.totalRepayAmount == SumTotal(response.planRepayRecords)
              && response.totalInterest == SumInterest(response.planRepayRecords)
  {
    var prepared;
    prepared, response := PrepareGetParameter(request);
    if prepared.Err? {
      return null, Some(prepared.error), None;
    }
    plan := Some(prepared.value);
    PeriodCountPositive(request, old(request.loanEndDate), prepared.value);
    assert CycleOf(request.loanCycleCode).Some?;
    FillSchedule(request.repayMethod, prepared.value, annuity, response);
    assert Describes(response, request, prepared.value);
    err := None;
  }

  /** The second switch of getRepaymentPlan for a periodic method: run the method's schedule into the response. */
  method FillSchedule(repayMethod: string, p: PlanRequest, annuity: real, response: Response)
    requires IsPeriodicMethod(repayMethod) && ValidPlan(p) && p.totalPeriodNum >= 1
    modifies response`planRepayRecords, response`totalRepayAmount, response`totalInterest
    ensures unchanged(response`repayMethod, response`loanStartDate, response`loanEndDate, response`totalPeriodNum,
                      response`loanAmount, response`interestRate)
    ensures response.planRepayRecords == PeriodicSchedule(repayMethod, p, annuity)
    ensures response.totalRepayAmount == SumTotal(response.planRepayRecords)
    ensures response.totalInterest == SumInterest(response.planRepayRecords)
  {
    if repayMethod == Constants.EqualLoanRepayment {
      FixedInstallmentMethodPlan(p, annuity, response);
    } else if repayMethod == Constants.EqualPrincipalRepayment {
      FixedPrincipalMethodPlan(p, response);
    } else if repayMethod == Constants.BeforeInterestAfterPrincipal {
      BeforeInterestAfterPrincipalPlan(p, response);
    } else {
      EqualPrincipalAndInterestPlan(p, response);
    }
  }

  /**
   * A request that passed `check` gets a plan of at least one period: a
   * requested count is positive, and without one the end date is given and
   * lies after the start date.
   */
  lemma PeriodCountPositive(request: Request, oldEnd: DateText, plan: PlanRequest)
    requires request.periodNum >= 0
    requires request.periodNum == 0 ==> Parse(oldEnd).Some?
    requires Prepared(request, oldEnd, plan)
    ensures plan.totalPeriodNum >= 1
  {
  }

  /**
   * CalculateRepaymentPlan: a request that fails `check` gets that error and
   * no response. Otherwise an unknown method code is an error, the periodic
   * methods fail only for a cycle without a date rule, and every response
   * has one record per period, at least one period, and totals that are the
   * sums over its records.
   */
  method CalculateRepaymentPlan(request: Request, annuity: real) returns (response: Response?, err: Option<Error>)
    modifies request`daysOfYear, request`loanEndDate
    ensures request.daysOfYear == if old(request.daysOfYear) == 0 then Constants.DaysOfYear else old(request.daysOfYear)
    ensures err.Some? <==> response == null
    ensures !old(Checked(request)) ==> err.Some? && request.loanEndDate == old(request.loanEndDate)
    ensures old(Checked(request)) ==>
              && (err == Some(RepayMethodError) <==>
                    !IsPeriodicMethod(request.repayMethod) && request.repayMethod != Constants.BothPrincipalAndInterest)
              && (err == Some(UnsupportedCycle) <==>
                    IsPeriodicMethod(request.repayMethod) && CycleOf(request.loanCycleCode).None?)
              && (err == None <==>
                    request.repayMethod == Constants.BothPrincipalAndInterest ||
                    (IsPeriodicMethod(request.repayMethod) && CycleOf(request.loanCycleCode).Some?))
    ensures err == None ==>
              && fresh(response)
              && response.totalPeriodNum >= 1
              && |response.planRepayRecords| == response.totalPeriodNum
              && response.totalRepayAmount == SumTotal(response.planRepayRecords)
              && response.totalInterest == SumInterest(response.planRepayRecords)
  {
    err := Check(request);
    if err.Some? {
      return null, err;
    }
    ghost var plan;
    response, err, plan := GetRepaymentPlan(request, annuity);
  }
}
