/**
 * Equal principal repayment (plan/fixedPrincipalMethod.go): every period but
 * the last repays the same share of the loan, the last repays whatever is
 * left, and each period's interest is the daily rate on the principal still
 * owed over the days of its accrual window.
 */
module FixedPrincipal {
  import opened Decimal
  import opened Calendar
  import opened Structs
  import opened Util
  import opened Schedule

  /** The principal repaid in each period but the last: the loan over the period count, to the even cent. */
  function FixedPrincipalAmount(loanAmount: real, totalPeriodNum: int): (r: real)
    requires totalPeriodNum != 0
    ensures IsCents(r)
    ensures -0.005 <= r - loanAmount / totalPeriodNum as real <= 0.005
  {
    RoundBank(loanAmount / totalPeriodNum as real)
  }

  /**
   * The record of period `i` (from 0) over window `w` of `days` days,
   * given the principal `owed` before it: the interest on `owed`, and either
   * one share of the principal or, in the last period, all of `owed`.
   */
  function FixedPrincipalRecord(p: PlanRequest, w: Window, days: int, i: int, owed: real): (r: Record)
    requires p.totalPeriodNum != 0
    ensures OverWindow(w, days, i, r)
    ensures IsCents(r.interest) && -0.005 <= r.interest - AccruedInterest(owed, p.daysInterestRate, days) <= 0.005
    ensures IsCents(r.principal)
    ensures i == p.totalPeriodNum - 1 ==>
              r.totalAmount == owed + r.interest && r.maintainPrincipal == 0.0 && -0.005 <= r.principal - owed <= 0.005
    ensures i != p.totalPeriodNum - 1 ==>
              && r.principal == FixedPrincipalAmount(p.loanAmount, p.totalPeriodNum)
              && r.totalAmount == r.principal + r.interest
              && r.maintainPrincipal == owed - r.principal
  {
    var share := FixedPrincipalAmount(p.loanAmount, p.totalPeriodNum);
    var interest := RoundBank(AccruedInterest(owed, p.daysInterestRate, days));
    if i == p.totalPeriodNum - 1 then
      RecordOver(w, days, i, interest + owed, RoundBank(owed), interest, 0.0)
    else
      RecordOver(w, days, i, interest + share, share, interest, owed - share)
  }

  /** The records of the first `k` periods; before period `i`, `i` shares have been repaid. */
  function FixedPrincipalSchedule(p: PlanRequest, ws: seq<Window>, ds: seq<int>, k: int): (recs: seq<Record>)
    requires p.totalPeriodNum != 0 && |ds| == |ws| && 0 <= k <= |ws|
    ensures |recs| == k
  {
    if k == 0 then []
    else
      var share := FixedPrincipalAmount(p.loanAmount, p.totalPeriodNum);
      FixedPrincipalSchedule(p, ws, ds, k - 1) + [FixedPrincipalRecord(p, ws[k - 1], ds[k - 1], k - 1, p.loanAmount - SharesPaid(k - 1, share))]
  }

  /** Record `j` of the schedule is the record of period `j` after `j` shares. */
  lemma {:induction false} FixedPrincipalScheduleAt(p: PlanRequest, ws: seq<Window>, ds: seq<int>, k: int, j: int)
    requires p.totalPeriodNum != 0 && |ds| == |ws| && 0 <= j < k <= |ws|
    ensures FixedPrincipalSchedule(p, ws, ds, k)[j]
         == FixedPrincipalRecord(p, ws[j], ds[j], j, p.loanAmount - SharesPaid(j, FixedPrincipalAmount(p.loanAmount, p.totalPeriodNum)))
    decreases k
  {
    if j < k - 1 {
      FixedPrincipalScheduleAt(p, ws, ds, k - 1, j);
    }
  }

  /**
   * One record, given the principal `owed` before it: it lies over its
   * window and repays one share (owing the rest) or, in the last period, all
   * of `owed`, being due that principal and its interest.
   */
  lemma {:induction false} FixedPrincipalRecordRepays(p: PlanRequest, w: Window, days: int, j: int, owed: real, r: Record)
    requires p.totalPeriodNum != 0
    requires r == FixedPrincipalRecord(p, w, days, j, owed)
    ensures OverWindow(w, days, j, r)
    ensures j != p.totalPeriodNum - 1 ==>
              && r.principal == FixedPrincipalAmount(p.loanAmount, p.totalPeriodNum)
              && r.totalAmount == r.interest + r.principal
              && r.maintainPrincipal == owed - r.principal
    ensures j == p.totalPeriodNum - 1 ==>
              && r.principal == RoundBank(owed)
              && r.totalAmount == r.interest + owed
              && r.maintainPrincipal == 0.0
  {
  }

  /** When what is left is whole cents, the last record repays exactly that. */
  lemma {:induction false} FixedPrincipalLastRecord(p: PlanRequest, w: Window, days: int, owed: real, r: Record)
    requires p.totalPeriodNum != 0
    requires IsCents(owed) && r == FixedPrincipalRecord(p, w, days, p.totalPeriodNum - 1, owed)
    ensures r.principal == owed
    ensures r.totalAmount == r.interest + r.principal
    ensures r.maintainPrincipal == 0.0
  {
    RoundingFixesCents(owed);
  }

  /** One record's interest is the daily rate on the principal `owed` before it, over its days, to the even cent. */
  lemma {:induction false} FixedPrincipalRecordInterest(p: PlanRequest, w: Window, days: int, j: int, owed: real, r: Record)
    requires p.totalPeriodNum != 0
    requires r == FixedPrincipalRecord(p, w, days, j, owed)
    ensures r.interest == RoundBank(AccruedInterest(owed, p.daysInterestRate, r.days))
  {
  }

  /**
   * The schedule follows the windows and their day counts; every period but
   * the last repays the equal share and is due that share plus its interest;
   * each period's interest is the daily rate on the principal still owed over
   * its days, rounded to the even cent; and before the last period the
   * balance goes down by exactly the principal repaid.
   */
  lemma {:induction false} FixedPrincipalRows(p: PlanRequest, ws: seq<Window>, ds: seq<int>)
    requires p.totalPeriodNum >= 1 && |ws| == p.totalPeriodNum && |ds| == |ws|
    ensures var recs := FixedPrincipalSchedule(p, ws, ds, |ws|);
      && FollowsWindows(ws, ds, recs)
      && (forall j :: 0 <= j < |recs| ==>
            recs[j].interest == RoundBank(AccruedInterest(Owed(p.loanAmount, recs, j), p.daysInterestRate, recs[j].days)))
      && (forall j :: 0 <= j < |recs| - 1 ==>
            && recs[j].principal == FixedPrincipalAmount(p.loanAmount, p.totalPeriodNum)
            && recs[j].totalAmount == recs[j].interest + recs[j].principal
            && recs[j].maintainPrincipal == Owed(p.loanAmount, recs, j) - recs[j].principal)
  {
    var recs := FixedPrincipalSchedule(p, ws, ds, |ws|);
    forall j | 0 <= j < |ws|
      ensures OverWindow(ws[j], ds[j], j, recs[j])
    {
      FixedPrincipalRow(p, ws, ds, j);
    }
    forall j | 0 <= j < |ws|
      ensures recs[j].interest == RoundBank(AccruedInterest(Owed(p.loanAmount, recs, j), p.daysInterestRate, recs[j].days))
    {
      FixedPrincipalRow(p, ws, ds, j);
    }
    forall j | 0 <= j < |ws| - 1
      ensures && recs[j].principal == FixedPrincipalAmount(p.loanAmount, p.totalPeriodNum)
              && recs[j].totalAmount == recs[j].interest + recs[j].principal
              && recs[j].maintainPrincipal == Owed(p.loanAmount, recs, j) - recs[j].principal
    {
      FixedPrincipalRow(p, ws, ds, j);
    }
  }

  /** Row `j` of the schedule, as FixedPrincipalRecordRepays and FixedPrincipalRecordInterest describe it for what is owed before it. */
  lemma {:induction false} FixedPrincipalRow(p: PlanRequest, ws: seq<Window>, ds: seq<int>, j: int)
    requires p.totalPeriodNum >= 1 && |ws| == p.totalPeriodNum && |ds| == |ws| && 0 <= j < |ws|
    ensures var recs := FixedPrincipalSchedule(p, ws, ds, |ws|);
      && OverWindow(ws[j], ds[j], j, recs[j])
      && recs[j].interest == RoundBank(AccruedInterest(Owed(p.loanAmount, recs, j), p.daysInterestRate, recs[j].days))
      && (j < |ws| - 1 ==>
            && recs[j].principal == FixedPrincipalAmount(p.loanAmount, p.totalPeriodNum)
            && recs[j].totalAmount == recs[j].interest + recs[j].principal
            && recs[j].maintainPrincipal == Owed(p.loanAmount, recs, j) - recs[j].principal)
  {
    var recs := FixedPrincipalSchedule(p, ws, ds, |ws|);
    FixedPrincipalOwed(p, ws, ds, j);
    FixedPrincipalScheduleAt(p, ws, ds, |ws|, j);
    FixedPrincipalRecordRepays(p, ws[j], ds[j], j, Owed(p.loanAmount, recs, j), recs[j]);
    FixedPrincipalRecordInterest(p, ws[j], ds[j], j, Owed(p.loanAmount, recs, j), recs[j]);
  }

  /** Before period `j`, the loan less `j` shares is owed. */
  lemma {:induction false} FixedPrincipalOwed(p: PlanRequest, ws: seq<Window>, ds: seq<int>, j: int)
    requires p.totalPeriodNum >= 1 && |ws| == p.totalPeriodNum && |ds| == |ws| && 0 <= j < |ws|
    ensures Owed(p.loanAmount, FixedPrincipalSchedule(p, ws, ds, |ws|), j)
         == p.loanAmount - SharesPaid(j, FixedPrincipalAmount(p.loanAmount, p.totalPeriodNum))
  {
    if j > 0 {
      var share := FixedPrincipalAmount(p.loanAmount, p.totalPeriodNum);
      var recs := FixedPrincipalSchedule(p, ws, ds, |ws|);
      FixedPrincipalScheduleAt(p, ws, ds, |ws|, j - 1);
      FixedPrincipalRecordRepays(p, ws[j - 1], ds[j - 1], j - 1, p.loanAmount - SharesPaid(j - 1, share), recs[j - 1]);
    }
  }

  /** The principal repaid by `i` equal shares. */
  function SharesPaid(i: int, share: real): real {
    if i <= 0 then 0.0 else SharesPaid(i - 1, share) + share
  }

  /** Whole-cent shares add up to whole cents. */
  lemma {:induction false} SharesCents(i: int, share: real)
    requires IsCents(share)
    ensures IsCents(SharesPaid(i, share))
  {
    if i <= 0 {
      WholeCents(0);
    } else {
      SharesCents(i - 1, share);
      CentsAddSub(SharesPaid(i - 1, share), share);
    }
  }

  /**
   * For a whole-cent loan the schedule repays the loan exactly: the last
   * period leaves nothing owed, every period reduces the balance by its
   * principal and is due its interest plus its principal, the principal over
   * the schedule is the loan and the amount due is the interest plus the loan.
   */
  lemma {:induction false} FixedPrincipalCloses(p: PlanRequest, ws: seq<Window>, ds: seq<int>)
    requires p.totalPeriodNum >= 1 && |ws| == p.totalPeriodNum && |ds| == |ws|
    requires IsCents(p.loanAmount)
    ensures var recs := FixedPrincipalSchedule(p, ws, ds, |ws|);
      && recs[|recs| - 1].maintainPrincipal == 0.0
      && ReducesBalance(p.loanAmount, recs)
      && TotalsSplit(recs)
      && SumPrincipal(recs) == p.loanAmount
      && SumTotal(recs) == SumInterest(recs) + p.loanAmount
  {
    var recs := FixedPrincipalSchedule(p, ws, ds, |ws|);
    assert ReducesBalance(p.loanAmount, recs) by {
      forall j | 0 <= j < |recs|
        ensures recs[j].maintainPrincipal == Owed(p.loanAmount, recs, j) - recs[j].principal
      {
        FixedPrincipalRowSplits(p, ws, ds, j);
      }
    }
    assert TotalsSplit(recs) by {
      forall j | 0 <= j < |recs|
        ensures recs[j].totalAmount == recs[j].interest + recs[j].principal
      {
        FixedPrincipalRowSplits(p, ws, ds, j);
      }
    }
    FixedPrincipalRowSplits(p, ws, ds, |ws| - 1);
    ClearedScheduleTotals(p.loanAmount, recs);
  }

  /** Row `j` of a whole-cent loan's schedule reduces the balance by its principal and is due its interest plus it; the last row leaves nothing. */
  lemma {:induction false} FixedPrincipalRowSplits(p: PlanRequest, ws: seq<Window>, ds: seq<int>, j: int)
    requires p.totalPeriodNum >= 1 && |ws| == p.totalPeriodNum && |ds| == |ws| && 0 <= j < |ws|
    requires IsCents(p.loanAmount)
    ensures var recs := FixedPrincipalSchedule(p, ws, ds, |ws|);
      && recs[j].maintainPrincipal == Owed(p.loanAmount, recs, j) - recs[j].principal
      && recs[j].totalAmount == recs[j].interest + recs[j].principal
      && (j == |ws| - 1 ==> recs[j].maintainPrincipal == 0.0)
  {
    var recs := FixedPrincipalSchedule(p, ws, ds, |ws|);
    var share := FixedPrincipalAmount(p.loanAmount, p.totalPeriodNum);
    var paid := SharesPaid(j, share);
    FixedPrincipalOwed(p, ws, ds, j);
    FixedPrincipalScheduleAt(p, ws, ds, |ws|, j);
    FixedPrincipalRecordRepays(p, ws[j], ds[j], j, p.loanAmount - paid, recs[j]);
    if j == |ws| - 1 {
      SharesCents(j, share);
      CentsAddSub(p.loanAmount, paid);
      FixedPrincipalLastRecord(p, ws[j], ds[j], p.loanAmount - paid, recs[j]);
    }
  }

  /** The schedule of `k + 1` periods extends the one of `k` by the record of period `k`. */
  lemma {:induction false} FixedPrincipalScheduleSnoc(p: PlanRequest, ws: seq<Window>, ds: seq<int>, k: int, owed: real, r: Record)
    requires p.totalPeriodNum != 0 && |ds| == |ws| && 0 <= k < |ws|
    requires owed == p.loanAmount - SharesPaid(k, FixedPrincipalAmount(p.loanAmount, p.totalPeriodNum))
    requires r == FixedPrincipalRecord(p, ws[k], ds[k], k, owed)
    ensures FixedPrincipalSchedule(p, ws, ds, k + 1) == FixedPrincipalSchedule(p, ws, ds, k) + [r]
  {
  }

  /**
   * fixedPrincipalMethodPlan: computes the plan's windows, then the schedule
   * over them, and stores the schedule and its totals in the response.
   */
  method FixedPrincipalMethodPlan(p: PlanRequest, response: Response)
    requires ValidPlan(p) && p.totalPeriodNum != 0
    modifies response`planRepayRecords, response`totalRepayAmount, response`totalInterest
    ensures response.planRepayRecords == FixedPrincipalSchedule(p, Windows(p), AccrualDays(Windows(p)), PeriodCount(p))
    ensures response.totalRepayAmount == SumTotal(response.planRepayRecords)
    ensures response.totalInterest == SumInterest(response.planRepayRecords)
  {
    var dateMap := CalculatePeriodDate(p);
    var records, sumTotalRepayAmount, sumTotalInterest := FixedPrincipalLoop(p, dateMap, AccrualDays(dateMap));
    response.planRepayRecords := records;
    response.totalRepayAmount := sumTotalRepayAmount;
    response.totalInterest := sumTotalInterest;
  }

  /**
   * The loop of fixedPrincipalMethodPlan over the windows `dateMap` of
   * `ds` accrual days each: every period repays the rounded share, the
   * last one what is left, and the sums follow the records.
   */
  method FixedPrincipalLoop(p: PlanRequest, dateMap: seq<Window>, ghost ds: seq<int>)
    returns (records: seq<Record>, sumTotalRepayAmount: real, sumTotalInterest: real)
    requires p.totalPeriodNum != 0 && |dateMap| == PeriodCount(p) && CountsDays(dateMap, ds)
    ensures records == FixedPrincipalSchedule(p, dateMap, ds, PeriodCount(p))
    ensures sumTotalRepayAmount == SumTotal(records) && sumTotalInterest == SumInterest(records)
  {
    var hasRepayPrincipal;
    sumTotalInterest, hasRepayPrincipal, sumTotalRepayAmount := 0.0, 0.0, 0.0;
    records := [];
    var periodRepayPrinciple := FixedPrincipalAmount(p.loanAmount, p.totalPeriodNum);
    var i := 0;
    while i < p.totalPeriodNum
      invariant 0 <= i <= |dateMap|
      invariant records == FixedPrincipalSchedule(p, dateMap, ds, i)
      invariant i < p.totalPeriodNum ==> hasRepayPrincipal == SharesPaid(i, periodRepayPrinciple)
      invariant sumTotalRepayAmount == SumTotal(records) && sumTotalInterest == SumInterest(records)
    {
      ghost var owed := p.loanAmount - hasRepayPrincipal;
      var record;
      record, hasRepayPrincipal := FixedPrincipalPeriod(p, dateMap, ds, i, hasRepayPrincipal, periodRepayPrinciple);
      sumTotalRepayAmount := sumTotalRepayAmount + record.totalAmount;
      sumTotalInterest := sumTotalInterest + record.interest;
      SumsAppend(records, record);
      FixedPrincipalScheduleSnoc(p, dateMap, ds, i, owed, record);
      records := records + [record];
      i := i + 1;
    }
    assert i == PeriodCount(p);
  }

  /**
   * One turn of the loop of fixedPrincipalMethodPlan: the record of period
   * `i` over window `dateMap[i]`, and the principal repaid once it is paid.
   */
  method FixedPrincipalPeriod(p: PlanRequest, dateMap: seq<Window>, ghost ds: seq<int>, i: int, hasRepayPrincipal: real, periodRepayPrinciple: real)
    returns (record: Record, hasAfter: real)
    requires p.totalPeriodNum != 0 && CountsDays(dateMap, ds) && 0 <= i < |dateMap|
    requires periodRepayPrinciple == FixedPrincipalAmount(p.loanAmount, p.totalPeriodNum)
    ensures record == FixedPrincipalRecord(p, dateMap[i], ds[i], i, p.loanAmount - hasRepayPrincipal)
    ensures hasAfter == if i == p.totalPeriodNum - 1 then p.loanAmount else hasRepayPrincipal + periodRepayPrinciple
  {
    var w := dateMap[i];
    var daysOfPeriod := DaysBetween(w.accrualStart, w.accrualEnd);
    assert daysOfPeriod == ds[i] by {
      assert ds[i] == WindowDays(dateMap[i]);
    }
    var periodRepayInterest := RoundBank(AccruedInterest(p.loanAmount - hasRepayPrincipal, p.daysInterestRate, daysOfPeriod));
    record := Record(i + 1, w.accrualStart, w.accrualEnd, daysOfPeriod, w.repayDate, 0.0, 0.0, periodRepayInterest, 0.0);
    hasAfter := hasRepayPrincipal;
    if i == p.totalPeriodNum - 1 {
      var remainPrinciple := p.loanAmount - hasAfter;
      record := record.(principal := RoundBank(remainPrinciple), totalAmount := periodRepayInterest + remainPrinciple);
      hasAfter := hasAfter + remainPrinciple;
    } else {
      hasAfter := hasAfter + periodRepayPrinciple;
      record := record.(principal := periodRepayPrinciple, totalAmount := periodRepayInterest + periodRepayPrinciple);
    }
    record := record.(maintainPrincipal := p.loanAmount - hasAfter);
  }
}
