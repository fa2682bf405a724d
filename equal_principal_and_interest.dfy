/**
 * Equal principal and equal interest (plan/equalPrincipalAndInterest.go):
 * every period is charged the same interest, an equal part of the interest
 * over the whole loan term; every period but the last repays the same share
 * of the loan, and the last repays exactly what is left.
 */
module EqualPrincipalAndInterest {
  import opened Decimal
  import opened Calendar
  import opened Structs
  import opened Util
  import opened Schedule

  /** The principal repaid in each period but the last: the loan over the period count, to the cent. */
  function EqualPrincipalAmount(loanAmount: real, totalPeriodNum: int): (r: real)
    requires totalPeriodNum != 0
    ensures IsCents(r)
    ensures -0.005 <= r - loanAmount / totalPeriodNum as real <= 0.005
  {
    Round(loanAmount / totalPeriodNum as real)
  }

  /**
   * The interest of every period: the interest on the whole loan over the
   * `totalCalcDays` days of the loan term, over the period count, to the cent.
   */
  function EqualInterestAmount(p: PlanRequest, totalCalcDays: int): (r: real)
    requires p.totalPeriodNum != 0
    ensures IsCents(r)
    ensures -0.005 <= r - AccruedInterest(p.loanAmount, p.daysInterestRate, totalCalcDays) / p.totalPeriodNum as real <= 0.005
  {
    Round(AccruedInterest(p.loanAmount, p.daysInterestRate, totalCalcDays) / p.totalPeriodNum as real)
  }

  /**
   * The record of period `i` over window `w` of `days` days, given the
   * principal `owed` before it: the fixed interest and either the fixed share
   * of principal or, in the last period, all of `owed`.
   */
  function EqualPrincipalAndInterestRecord(p: PlanRequest, share: real, interest: real, w: Window, days: int, i: int, owed: real): (r: Record)
    ensures OverWindow(w, days, i, r)
    ensures r.interest == interest
    ensures r.principal == if i == p.totalPeriodNum - 1 then owed else share
    ensures r.totalAmount == r.principal + r.interest
    ensures r.maintainPrincipal == owed - r.principal
  {
    if i == p.totalPeriodNum - 1 then
      RecordOver(w, days, i, interest + owed, owed, interest, 0.0)
    else
      RecordOver(w, days, i, interest + share, share, interest, owed - share)
  }

  /** The records of the first `k` periods: each period starts owing the balance the previous record left. */
  function EqualPrincipalAndInterestSchedule(p: PlanRequest, share: real, interest: real, ws: seq<Window>, ds: seq<int>, k: int): (recs: seq<Record>)
    requires |ds| == |ws| && 0 <= k <= |ws|
    ensures |recs| == k
  {
    if k == 0 then []
    else
      var before := EqualPrincipalAndInterestSchedule(p, share, interest, ws, ds, k - 1);
      before + [EqualPrincipalAndInterestRecord(p, share, interest, ws[k - 1], ds[k - 1], k - 1, Owed(p.loanAmount, before, k - 1))]
  }

  /** The first `j` records of a longer schedule are the schedule of `j` periods. */
  lemma {:induction false} EqualPrincipalAndInterestSchedulePrefix(p: PlanRequest, share: real, interest: real, ws: seq<Window>, ds: seq<int>, k: int, j: int)
    requires |ds| == |ws| && 0 <= j <= k <= |ws|
    ensures EqualPrincipalAndInterestSchedule(p, share, interest, ws, ds, k)[..j] == EqualPrincipalAndInterestSchedule(p, share, interest, ws, ds, j)
    decreases k
  {
    if j < k {
      var before := EqualPrincipalAndInterestSchedule(p, share, interest, ws, ds, k - 1);
      EqualPrincipalAndInterestSchedulePrefix(p, share, interest, ws, ds, k - 1, j);
      assert EqualPrincipalAndInterestSchedule(p, share, interest, ws, ds, k)[..j] == before[..j];
    }
  }

  /** Record `j` of the schedule is the record of period `j` over what was owed before it. */
  lemma {:induction false} EqualPrincipalAndInterestScheduleAt(p: PlanRequest, share: real, interest: real, ws: seq<Window>, ds: seq<int>, k: int, j: int)
    requires |ds| == |ws| && 0 <= j < k <= |ws|
    ensures var recs := EqualPrincipalAndInterestSchedule(p, share, interest, ws, ds, k);
      recs[j] == EqualPrincipalAndInterestRecord(p, share, interest, ws[j], ds[j], j, Owed(p.loanAmount, recs, j))
  {
    var recs := EqualPrincipalAndInterestSchedule(p, share, interest, ws, ds, k);
    var upto := EqualPrincipalAndInterestSchedule(p, share, interest, ws, ds, j + 1);
    var before := EqualPrincipalAndInterestSchedule(p, share, interest, ws, ds, j);
    EqualPrincipalAndInterestSchedulePrefix(p, share, interest, ws, ds, k, j + 1);
    EqualPrincipalAndInterestSchedulePrefix(p, share, interest, ws, ds, j + 1, j);
    assert recs[j] == upto[j];
    assert Owed(p.loanAmount, recs, j) == Owed(p.loanAmount, before, j) by {
      if j > 0 {
        assert recs[j - 1] == upto[j - 1] == before[j - 1];
      }
    }
  }

  /** The schedule of `k + 1` periods extends the one of `k` by the record of period `k`. */
  lemma {:induction false} EqualPrincipalAndInterestScheduleSnoc(p: PlanRequest, share: real, interest: real, ws: seq<Window>, ds: seq<int>, k: int, r: Record)
    requires |ds| == |ws| && 0 <= k < |ws|
    requires r == EqualPrincipalAndInterestRecord(p, share, interest, ws[k], ds[k], k,
                    Owed(p.loanAmount, EqualPrincipalAndInterestSchedule(p, share, interest, ws, ds, k), k))
    ensures EqualPrincipalAndInterestSchedule(p, share, interest, ws, ds, k + 1)
         == EqualPrincipalAndInterestSchedule(p, share, interest, ws, ds, k) + [r]
  {
  }

  /**
   * The schedule follows the windows and their day counts, charges every
   * period the same interest, and before the last period repays the same
   * share and is due that share plus the interest; the last period repays
   * all that is owed and leaves nothing; every period reduces the balance by
   * its principal and is due its interest plus its principal.
   */
  lemma {:induction false} EqualPrincipalAndInterestRows(p: PlanRequest, share: real, interest: real, ws: seq<Window>, ds: seq<int>)
    requires p.totalPeriodNum >= 1 && |ws| == p.totalPeriodNum && |ds| == |ws|
    ensures var recs := EqualPrincipalAndInterestSchedule(p, share, interest, ws, ds, |ws|);
      && FollowsWindows(ws, ds, recs)
      && (forall j :: 0 <= j < |recs| ==> recs[j].interest == interest)
      && (forall j :: 0 <= j < |recs| - 1 ==> recs[j].principal == share && recs[j].totalAmount == interest + share)
      && recs[|recs| - 1].principal == Owed(p.loanAmount, recs, |recs| - 1)
      && recs[|recs| - 1].maintainPrincipal == 0.0
      && ReducesBalance(p.loanAmount, recs)
      && TotalsSplit(recs)
  {
    var n := |ws|;
    var recs := EqualPrincipalAndInterestSchedule(p, share, interest, ws, ds, n);
    forall j | 0 <= j < n
      ensures OverWindow(ws[j], ds[j], j, recs[j])
      ensures recs[j].interest == interest
      ensures recs[j].maintainPrincipal == Owed(p.loanAmount, recs, j) - recs[j].principal
      ensures recs[j].totalAmount == recs[j].interest + recs[j].principal
      ensures j < n - 1 ==> recs[j].principal == share
      ensures j == n - 1 ==> recs[j].principal == Owed(p.loanAmount, recs, j) && recs[j].maintainPrincipal == 0.0
    {
      EqualPrincipalAndInterestScheduleAt(p, share, interest, ws, ds, n, j);
    }
  }

  /** Every period of the schedule is charged the fixed interest. */
  lemma {:induction false} EqualPrincipalAndInterestCharges(p: PlanRequest, share: real, interest: real, ws: seq<Window>, ds: seq<int>)
    requires |ds| == |ws|
    ensures var recs := EqualPrincipalAndInterestSchedule(p, share, interest, ws, ds, |ws|);
      forall j :: 0 <= j < |recs| ==> recs[j].interest == interest
  {
    var recs := EqualPrincipalAndInterestSchedule(p, share, interest, ws, ds, |ws|);
    forall j | 0 <= j < |recs|
      ensures recs[j].interest == interest
    {
      EqualPrincipalAndInterestScheduleAt(p, share, interest, ws, ds, |ws|, j);
    }
  }

  /**
   * The schedule repays the loan exactly, whatever the amounts: its principal
   * is the loan, the interest over it is the period count times the fixed
   * interest, and the amount due is that interest plus the loan.
   */
  lemma {:induction false} EqualPrincipalAndInterestCloses(p: PlanRequest, share: real, interest: real, ws: seq<Window>, ds: seq<int>)
    requires p.totalPeriodNum >= 1 && |ws| == p.totalPeriodNum && |ds| == |ws|
    ensures var recs := EqualPrincipalAndInterestSchedule(p, share, interest, ws, ds, |ws|);
      && SumPrincipal(recs) == p.loanAmount
      && SumInterest(recs) == p.totalPeriodNum as real * interest
      && SumTotal(recs) == p.totalPeriodNum as real * interest + p.loanAmount
  {
    var recs := EqualPrincipalAndInterestSchedule(p, share, interest, ws, ds, |ws|);
    assert SumPrincipal(recs) == p.loanAmount && SumTotal(recs) == SumInterest(recs) + p.loanAmount by {
      EqualPrincipalAndInterestRows(p, share, interest, ws, ds);
      ClearedScheduleTotals(p.loanAmount, recs);
    }
    assert SumInterest(recs) == p.totalPeriodNum as real * interest by {
      EqualPrincipalAndInterestCharges(p, share, interest, ws, ds);
      ConstantInterestSum(recs, interest, p.totalPeriodNum);
    }
  }

  /**
   * equalPrincipalAndInterestPlan: fixes the share of principal and the
   * interest, computes the plan's windows, then the schedule over them, and
   * stores the schedule and its totals in the response.
   */
  method EqualPrincipalAndInterestPlan(p: PlanRequest, response: Response)
    requires ValidPlan(p) && p.totalPeriodNum != 0
    modifies response`planRepayRecords, response`totalRepayAmount, response`totalInterest
    ensures response.planRepayRecords
         == EqualPrincipalAndInterestSchedule(p, EqualPrincipalAmount(p.loanAmount, p.totalPeriodNum),
              EqualInterestAmount(p, DaysBetween(p.loanStartDate, p.loanEndDate)),
              Windows(p), AccrualDays(Windows(p)), PeriodCount(p))
    ensures response.totalRepayAmount == SumTotal(response.planRepayRecords)
    ensures response.totalInterest == SumInterest(response.planRepayRecords)
  {
    var planRepayPrinciplePeriod := EqualPrincipalAmount(p.loanAmount, p.totalPeriodNum);
    var totalCalcDays := DaysBetween(p.loanStartDate, p.loanEndDate);
    var planRepayInterestPeriod := EqualInterestAmount(p, totalCalcDays);
    var dateMap := CalculatePeriodDate(p);
    var records, sumTotalRepayAmount, sumTotalInterest :=
      EqualPrincipalAndInterestLoop(p, planRepayPrinciplePeriod, planRepayInterestPeriod, dateMap, AccrualDays(dateMap));
    response.planRepayRecords := records;
    response.totalRepayAmount := sumTotalRepayAmount;
    response.totalInterest := sumTotalInterest;
  }

  /**
   * The loop of equalPrincipalAndInterestPlan over the windows `dateMap` of
   * `ds` accrual days each.
   */
  method EqualPrincipalAndInterestLoop(p: PlanRequest, planRepayPrinciplePeriod: real, planRepayInterestPeriod: real,
                                       dateMap: seq<Window>, ghost ds: seq<int>)
    returns (records: seq<Record>, sumTotalRepayAmount: real, sumTotalInterest: real)
    requires |dateMap| == PeriodCount(p) && CountsDays(dateMap, ds)
    ensures records == EqualPrincipalAndInterestSchedule(p, planRepayPrinciplePeriod, planRepayInterestPeriod, dateMap, ds, PeriodCount(p))
    ensures sumTotalRepayAmount == SumTotal(records) && sumTotalInterest == SumInterest(records)
  {
    var hasRepayPrincipal;
    sumTotalInterest, hasRepayPrincipal, sumTotalRepayAmount := 0.0, 0.0, 0.0;
    records := [];
    var i := 0;
    while i < p.totalPeriodNum
      invariant 0 <= i <= |dateMap|
      invariant records == EqualPrincipalAndInterestSchedule(p, planRepayPrinciplePeriod, planRepayInterestPeriod, dateMap, ds, i)
      invariant hasRepayPrincipal == p.loanAmount - Owed(p.loanAmount, records, i)
      invariant sumTotalRepayAmount == SumTotal(records) && sumTotalInterest == SumInterest(records)
    {
      var record;
      record, hasRepayPrincipal := EqualPrincipalAndInterestPeriod(p, planRepayPrinciplePeriod, planRepayInterestPeriod,
                                                                   dateMap, ds, i, hasRepayPrincipal, Owed(p.loanAmount, records, i));
      sumTotalRepayAmount := sumTotalRepayAmount + record.totalAmount;
      sumTotalInterest := sumTotalInterest + record.interest;
      SumsAppend(records, record);
      EqualPrincipalAndInterestScheduleSnoc(p, planRepayPrinciplePeriod, planRepayInterestPeriod, dateMap, ds, i, record);
      records := records + [record];
      i := i + 1;
    }
    assert i == PeriodCount(p);
  }

  /**
   * One turn of the loop of equalPrincipalAndInterestPlan: the record of
   * period `i` over window `dateMap[i]` when `owed` is still owed, and the
   * principal repaid once it is paid.
   */
  method EqualPrincipalAndInterestPeriod(p: PlanRequest, planRepayPrinciplePeriod: real, planRepayInterestPeriod: real,
                                         dateMap: seq<Window>, ghost ds: seq<int>, i: int, hasRepayPrincipal: real, ghost owed: real)
    returns (record: Record, hasAfter: real)
    requires CountsDays(dateMap, ds) && 0 <= i < |dateMap|
    requires owed == p.loanAmount - hasRepayPrincipal
    ensures record == EqualPrincipalAndInterestRecord(p, planRepayPrinciplePeriod, planRepayInterestPeriod, dateMap[i], ds[i], i, owed)
    ensures record.maintainPrincipal == p.loanAmount - hasAfter
  {
    var w := dateMap[i];
    var daysOfPeriod := DaysBetween(w.accrualStart, w.accrualEnd);
    assert daysOfPeriod == ds[i] by {
      assert ds[i] == WindowDays(dateMap[i]);
    }
    record := Record(i + 1, w.accrualStart, w.accrualEnd, daysOfPeriod, w.repayDate, 0.0, 0.0, planRepayInterestPeriod, 0.0);
    hasAfter := hasRepayPrincipal;
    if i == p.totalPeriodNum - 1 {
      var remainPrinciple := p.loanAmount - hasAfter;
      hasAfter := hasAfter + remainPrinciple;
      record := record.(principal := remainPrinciple, totalAmount := planRepayInterestPeriod + remainPrinciple);
    } else {
      hasAfter := hasAfter + planRepayPrinciplePeriod;
      record := record.(principal := planRepayPrinciplePeriod, totalAmount := planRepayInterestPeriod + planRepayPrinciplePeriod);
    }
    record := record.(maintainPrincipal := p.loanAmount - hasAfter);
  }
}
