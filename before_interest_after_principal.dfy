/**
 * Interest first, principal at the end (plan/beforeInterestAfterPrincipal.go):
 * every period is charged the interest on the whole loan over its days, and
 * the last period also repays the whole loan.
 */
module BeforeInterestAfterPrincipal {
  import opened Decimal
  import opened Calendar
  import opened Structs
  import opened Util
  import opened Schedule

  /**
   * The record of period `i` over window `w` of `days` days: the interest on
   * the whole loan, to the cent, and no principal before the last period.
   */
  function BeforeInterestAfterPrincipalRecord(p: PlanRequest, w: Window, days: int, i: int): (r: Record)
    ensures OverWindow(w, days, i, r)
    ensures IsCents(r.interest) && -0.005 <= r.interest - AccruedInterest(p.loanAmount, p.daysInterestRate, days) <= 0.005
    ensures r.principal == if i == p.totalPeriodNum - 1 then p.loanAmount else 0.0
    ensures r.totalAmount == r.principal + r.interest
    ensures r.maintainPrincipal == p.loanAmount - r.principal
  {
    var interest := Round(AccruedInterest(p.loanAmount, p.daysInterestRate, days));
    if i == p.totalPeriodNum - 1 then
      RecordOver(w, days, i, interest + p.loanAmount, p.loanAmount, interest, 0.0)
    else
      RecordOver(w, days, i, interest, 0.0, interest, p.loanAmount)
  }

  /** The records of the first `k` periods. */
  function BeforeInterestAfterPrincipalSchedule(p: PlanRequest, ws: seq<Window>, ds: seq<int>, k: int): (recs: seq<Record>)
    requires |ds| == |ws| && 0 <= k <= |ws|
    ensures |recs| == k
  {
    if k == 0 then []
    else BeforeInterestAfterPrincipalSchedule(p, ws, ds, k - 1) + [BeforeInterestAfterPrincipalRecord(p, ws[k - 1], ds[k - 1], k - 1)]
  }

  /** Record `j` of the schedule is the record of period `j`. */
  lemma {:induction false} BeforeInterestAfterPrincipalScheduleAt(p: PlanRequest, ws: seq<Window>, ds: seq<int>, k: int, j: int)
    requires |ds| == |ws| && 0 <= j < k <= |ws|
    ensures BeforeInterestAfterPrincipalSchedule(p, ws, ds, k)[j] == BeforeInterestAfterPrincipalRecord(p, ws[j], ds[j], j)
    decreases k
  {
    if j < k - 1 {
      BeforeInterestAfterPrincipalScheduleAt(p, ws, ds, k - 1, j);
    }
  }

  /**
   * The schedule follows the windows and their day counts; each period is
   * charged the interest on the whole loan over its days, to the cent; before
   * the last period nothing is repaid, the amount due is the interest and the
   * whole loan is still owed; the last period repays the loan, is due it and
   * its interest, and leaves nothing owed.
   */
  lemma {:induction false} BeforeInterestAfterPrincipalRows(p: PlanRequest, ws: seq<Window>, ds: seq<int>)
    requires p.totalPeriodNum >= 1 && |ws| == p.totalPeriodNum && |ds| == |ws|
    ensures var recs := BeforeInterestAfterPrincipalSchedule(p, ws, ds, |ws|);
      && FollowsWindows(ws, ds, recs)
      && (forall j :: 0 <= j < |recs| ==>
            recs[j].interest == Round(AccruedInterest(p.loanAmount, p.daysInterestRate, recs[j].days)))
      && (forall j :: 0 <= j < |recs| - 1 ==>
            recs[j].principal == 0.0 && recs[j].totalAmount == recs[j].interest && recs[j].maintainPrincipal == p.loanAmount)
      && recs[|recs| - 1].principal == p.loanAmount
      && recs[|recs| - 1].totalAmount == recs[|recs| - 1].interest + p.loanAmount
      && recs[|recs| - 1].maintainPrincipal == 0.0
  {
    var n := |ws|;
    var recs := BeforeInterestAfterPrincipalSchedule(p, ws, ds, n);
    forall j | 0 <= j < n
      ensures OverWindow(ws[j], ds[j], j, recs[j])
      ensures recs[j].interest == Round(AccruedInterest(p.loanAmount, p.daysInterestRate, recs[j].days))
      ensures j < n - 1 ==> recs[j].principal == 0.0 && recs[j].totalAmount == recs[j].interest && recs[j].maintainPrincipal == p.loanAmount
      ensures j == n - 1 ==>
                recs[j].principal == p.loanAmount && recs[j].totalAmount == recs[j].interest + p.loanAmount && recs[j].maintainPrincipal == 0.0
    {
      BeforeInterestAfterPrincipalScheduleAt(p, ws, ds, n, j);
    }
  }

  /**
   * The schedule repays the loan exactly: every period reduces the balance by
   * its principal and is due its interest plus its principal, the principal
   * over the schedule is the loan, and the amount due is the interest plus
   * the loan.
   */
  lemma {:induction false} BeforeInterestAfterPrincipalCloses(p: PlanRequest, ws: seq<Window>, ds: seq<int>)
    requires p.totalPeriodNum >= 1 && |ws| == p.totalPeriodNum && |ds| == |ws|
    ensures var recs := BeforeInterestAfterPrincipalSchedule(p, ws, ds, |ws|);
      && ReducesBalance(p.loanAmount, recs)
      && TotalsSplit(recs)
      && SumPrincipal(recs) == p.loanAmount
      && SumTotal(recs) == SumInterest(recs) + p.loanAmount
  {
    var n := |ws|;
    var recs := BeforeInterestAfterPrincipalSchedule(p, ws, ds, n);
    forall j | 0 <= j < n
      ensures recs[j].maintainPrincipal == Owed(p.loanAmount, recs, j) - recs[j].principal
      ensures recs[j].totalAmount == recs[j].interest + recs[j].principal
      ensures j == n - 1 ==> recs[j].maintainPrincipal == 0.0
    {
      BeforeInterestAfterPrincipalScheduleAt(p, ws, ds, n, j);
      if j > 0 {
        BeforeInterestAfterPrincipalScheduleAt(p, ws, ds, n, j - 1);
      }
    }
    ClearedScheduleTotals(p.loanAmount, recs);
  }

  /**
   * beforeInterestAfterPrincipalPlan: computes the plan's windows, then the
   * schedule over them, and stores the schedule and its totals in the
   * response.
   */
  method BeforeInterestAfterPrincipalPlan(p: PlanRequest, response: Response)
    requires ValidPlan(p)
    modifies response`planRepayRecords, response`totalRepayAmount, response`totalInterest
    ensures response.planRepayRecords == BeforeInterestAfterPrincipalSchedule(p, Windows(p), AccrualDays(Windows(p)), PeriodCount(p))
    ensures response.totalRepayAmount == SumTotal(response.planRepayRecords)
    ensures response.totalInterest == SumInterest(response.planRepayRecords)
  {
    var dateMap := CalculatePeriodDate(p);
    var records, sumTotalRepayAmount, sumTotalInterest := BeforeInterestAfterPrincipalLoop(p, dateMap, AccrualDays(dateMap));
    response.planRepayRecords := records;
    response.totalRepayAmount := sumTotalRepayAmount;
    response.totalInterest := sumTotalInterest;
  }

  /** The loop of beforeInterestAfterPrincipalPlan over the windows `dateMap` of `ds` accrual days each. */
  method BeforeInterestAfterPrincipalLoop(p: PlanRequest, dateMap: seq<Window>, ghost ds: seq<int>)
    returns (records: seq<Record>, sumTotalRepayAmount: real, sumTotalInterest: real)
    requires |dateMap| == PeriodCount(p) && CountsDays(dateMap, ds)
    ensures records == BeforeInterestAfterPrincipalSchedule(p, dateMap, ds, PeriodCount(p))
    ensures sumTotalRepayAmount == SumTotal(records) && sumTotalInterest == SumInterest(records)
  {
    sumTotalInterest, sumTotalRepayAmount := 0.0, 0.0;
    records := [];
    var i := 0;
    while i < p.totalPeriodNum
      invariant 0 <= i <= |dateMap|
      invariant records == BeforeInterestAfterPrincipalSchedule(p, dateMap, ds, i)
      invariant sumTotalRepayAmount == SumTotal(records) && sumTotalInterest == SumInterest(records)
    {
      var record := BeforeInterestAfterPrincipalPeriod(p, dateMap, ds, i);
      sumTotalRepayAmount := sumTotalRepayAmount + record.totalAmount;
      sumTotalInterest := sumTotalInterest + record.interest;
      SumsAppend(records, record);
      records := records + [record];
      i := i + 1;
    }
    assert i == PeriodCount(p);
  }

  /** One turn of the loop of beforeInterestAfterPrincipalPlan: the record of period `i` over window `dateMap[i]`. */
  method BeforeInterestAfterPrincipalPeriod(p: PlanRequest, dateMap: seq<Window>, ghost ds: seq<int>, i: int) returns (record: Record)
    requires CountsDays(dateMap, ds) && 0 <= i < |dateMap|
    ensures record == BeforeInterestAfterPrincipalRecord(p, dateMap[i], ds[i], i)
  {
    var w := dateMap[i];
    var daysOfPeriod := DaysBetween(w.accrualStart, w.accrualEnd);
    assert daysOfPeriod == ds[i] by {
      assert ds[i] == WindowDays(dateMap[i]);
    }
    var periodRepayInterest := Round(AccruedInterest(p.loanAmount, p.daysInterestRate, daysOfPeriod));
    record := Record(i + 1, w.accrualStart, w.accrualEnd, daysOfPeriod, w.repayDate, 0.0, 0.0, periodRepayInterest, 0.0);
    if i == p.totalPeriodNum - 1 {
      record := record.(principal := p.loanAmount, totalAmount := periodRepayInterest + p.loanAmount, maintainPrincipal := 0.0);
    } else {
      record := record.(principal := 0.0, totalAmount := periodRepayInterest, maintainPrincipal := p.loanAmount);
    }
  }
}
