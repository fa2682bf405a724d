/**
 * Equal instalments (plan/fixedInstallmentMethod.go): every period but the
 * last is due the same payment, of which the interest on the principal still
 * owed is interest and the rest repays principal; the last period repays
 * whatever is left.
 */
module FixedInstallment {
  import opened Decimal
  import opened Calendar
  import opened Structs
  import opened Util
  import opened Schedule

  /**
   * calculateFixedInstallmentMethod: with a zero period rate, the loan over
   * the period count to the cent; otherwise the annuity payment `annuity`,
   * which the source computes in floating point and rounds to the cent.
   */
  function FixedInstallmentAmount(loanAmount: real, periodInterestRate: real, totalPeriodNum: int, annuity: real): (r: real)
    requires totalPeriodNum != 0
    ensures periodInterestRate == 0.0 ==> IsCents(r) && -0.005 <= r - loanAmount / totalPeriodNum as real <= 0.005
    ensures periodInterestRate != 0.0 ==> r == annuity
  {
    if periodInterestRate == 0.0 then Round(loanAmount / totalPeriodNum as real) else annuity
  }

  /**
   * The record of period `i` over window `dateMap[i]` of `days` days, given the
   * principal `owed` before it: due `pay`, of which the part over the
   * interest repays principal, or in the last period due all of `owed` and
   * its interest.
   */
  function FixedInstallmentRecord(p: PlanRequest, pay: real, w: Window, days: int, i: int, owed: real): (r: Record)
    ensures OverWindow(w, days, i, r)
    ensures IsCents(r.interest) && -0.005 <= r.interest - AccruedInterest(owed, p.daysInterestRate, days) <= 0.005
    ensures IsCents(r.principal)
    ensures i == p.totalPeriodNum - 1 ==>
              r.totalAmount == owed + r.interest && r.maintainPrincipal == 0.0 && -0.005 <= r.principal - owed <= 0.005
    ensures i != p.totalPeriodNum - 1 ==>
              && r.totalAmount == pay
              && -0.005 <= r.principal - (pay - r.interest) <= 0.005
              && r.maintainPrincipal == owed - (pay - r.interest)
  {
    var interest := RoundBank(AccruedInterest(owed, p.daysInterestRate, days));
    if i == p.totalPeriodNum - 1 then
      RecordOver(w, days, i, interest + owed, RoundBank(owed), interest, 0.0)
    else
      RecordOver(w, days, i, pay, Round(pay - interest), interest, owed - (pay - interest))
  }

  /**
   * The records of the first `k` periods: each period starts owing the
   * balance the previous record left.
   */
  function FixedInstallmentSchedule(p: PlanRequest, pay: real, ws: seq<Window>, ds: seq<int>, k: int): (recs: seq<Record>)
    requires |ds| == |ws| && 0 <= k <= |ws|
    ensures |recs| == k
  {
    if k == 0 then []
    else
      var before := FixedInstallmentSchedule(p, pay, ws, ds, k - 1);
      before + [FixedInstallmentRecord(p, pay, ws[k - 1], ds[k - 1], k - 1, Owed(p.loanAmount, before, k - 1))]
  }

  /** The first `j` records of a longer schedule are the schedule of `j` periods. */
  lemma {:induction false} FixedInstallmentSchedulePrefix(p: PlanRequest, pay: real, ws: seq<Window>, ds: seq<int>, k: int, j: int)
    requires |ds| == |ws| && 0 <= j <= k <= |ws|
    ensures FixedInstallmentSchedule(p, pay, ws, ds, k)[..j] == FixedInstallmentSchedule(p, pay, ws, ds, j)
    decreases k
  {
    if j < k {
      var before := FixedInstallmentSchedule(p, pay, ws, ds, k - 1);
      FixedInstallmentSchedulePrefix(p, pay, ws, ds, k - 1, j);
      assert FixedInstallmentSchedule(p, pay, ws, ds, k)[..j] == before[..j];
    }
  }

  /** Record `j` of the schedule is the record of period `j` over what was owed before it. */
  lemma {:induction false} FixedInstallmentScheduleAt(p: PlanRequest, pay: real, ws: seq<Window>, ds: seq<int>, k: int, j: int)
    requires |ds| == |ws| && 0 <= j < k <= |ws|
    ensures var recs := FixedInstallmentSchedule(p, pay, ws, ds, k);
      recs[j] == FixedInstallmentRecord(p, pay, ws[j], ds[j], j, Owed(p.loanAmount, recs, j))
  {
    var recs := FixedInstallmentSchedule(p, pay, ws, ds, k);
    var upto := FixedInstallmentSchedule(p, pay, ws, ds, j + 1);
    var before := FixedInstallmentSchedule(p, pay, ws, ds, j);
    FixedInstallmentSchedulePrefix(p, pay, ws, ds, k, j + 1);
    FixedInstallmentSchedulePrefix(p, pay, ws, ds, j + 1, j);
    assert recs[j] == upto[j];
    assert Owed(p.loanAmount, recs, j) == Owed(p.loanAmount, before, j) by {
      if j > 0 {
        assert recs[j - 1] == upto[j - 1] == before[j - 1];
      }
    }
  }

  /** The schedule of `k + 1` periods extends the one of `k` by the record of period `k`. */
  lemma {:induction false} FixedInstallmentScheduleSnoc(p: PlanRequest, pay: real, ws: seq<Window>, ds: seq<int>, k: int, r: Record)
    requires |ds| == |ws| && 0 <= k < |ws|
    requires r == FixedInstallmentRecord(p, pay, ws[k], ds[k], k, Owed(p.loanAmount, FixedInstallmentSchedule(p, pay, ws, ds, k), k))
    ensures FixedInstallmentSchedule(p, pay, ws, ds, k + 1) == FixedInstallmentSchedule(p, pay, ws, ds, k) + [r]
  {
  }

  /**
   * One record, given the principal `owed` before it: it lies over its
   * window, its interest is the daily rate on `owed` over its days to the even
   * cent, and it is due the payment (owing `owed` less the payment's part over
   * the interest) or, in the last period, `owed` and its interest.
   */
  lemma {:induction false} FixedInstallmentRecordRepays(p: PlanRequest, pay: real, w: Window, days: int, j: int, owed: real, r: Record)
    requires r == FixedInstallmentRecord(p, pay, w, days, j, owed)
    ensures OverWindow(w, days, j, r)
    ensures r.interest == RoundBank(AccruedInterest(owed, p.daysInterestRate, r.days))
    ensures j != p.totalPeriodNum - 1 ==>
              && r.totalAmount == pay
              && r.principal == Round(pay - r.interest)
              && r.maintainPrincipal == owed - (pay - r.interest)
    ensures j == p.totalPeriodNum - 1 ==>
              && r.principal == RoundBank(owed)
              && r.totalAmount == r.interest + owed
              && r.maintainPrincipal == 0.0
  {
  }

  /** Interest to the even cent is whole cents, so with a whole-cent payment no rounding touches the principal. */
  lemma {:induction false} FixedInstallmentRecordCents(p: PlanRequest, pay: real, w: Window, days: int, j: int, owed: real, r: Record)
    requires IsCents(pay) && IsCents(owed)
    requires r == FixedInstallmentRecord(p, pay, w, days, j, owed)
    ensures r.totalAmount == r.interest + r.principal
    ensures r.maintainPrincipal == owed - r.principal
    ensures j == p.totalPeriodNum - 1 ==> r.maintainPrincipal == 0.0
  {
    var interest := RoundBank(AccruedInterest(owed, p.daysInterestRate, days));
    if j == p.totalPeriodNum - 1 {
      RoundingFixesCents(owed);
    } else {
      CentsAddSub(pay, interest);
      RoundingFixesCents(pay - interest);
    }
  }

  /** With a whole-cent loan and payment, the balance owed before every period is whole cents. */
  lemma {:induction false} FixedInstallmentOwedCents(p: PlanRequest, pay: real, ws: seq<Window>, ds: seq<int>, j: int)
    requires IsCents(p.loanAmount) && IsCents(pay)
    requires |ds| == |ws| && 0 <= j < |ws|
    ensures IsCents(Owed(p.loanAmount, FixedInstallmentSchedule(p, pay, ws, ds, |ws|), j))
  {
    var recs := FixedInstallmentSchedule(p, pay, ws, ds, |ws|);
    if j > 0 {
      FixedInstallmentOwedCents(p, pay, ws, ds, j - 1);
      FixedInstallmentScheduleAt(p, pay, ws, ds, |ws|, j - 1);
      FixedInstallmentRecordCents(p, pay, ws[j - 1], ds[j - 1], j - 1, Owed(p.loanAmount, recs, j - 1), recs[j - 1]);
      CentsAddSub(Owed(p.loanAmount, recs, j - 1), recs[j - 1].principal);
    }
  }

  /**
   * The schedule follows the windows and their day counts; each period's
   * interest is the daily rate on the principal still owed over its days, to
   * the even cent; and every period but the last is due the fixed payment,
   * of which the part over the interest repays principal.
   */
  lemma {:induction false} FixedInstallmentRows(p: PlanRequest, pay: real, ws: seq<Window>, ds: seq<int>)
    requires p.totalPeriodNum >= 1 && |ws| == p.totalPeriodNum && |ds| == |ws|
    ensures var recs := FixedInstallmentSchedule(p, pay, ws, ds, |ws|);
      && FollowsWindows(ws, ds, recs)
      && (forall j :: 0 <= j < |recs| ==>
            recs[j].interest == RoundBank(AccruedInterest(Owed(p.loanAmount, recs, j), p.daysInterestRate, recs[j].days)))
      && (forall j :: 0 <= j < |recs| - 1 ==>
            && recs[j].totalAmount == pay
            && recs[j].principal == Round(pay - recs[j].interest)
            && recs[j].maintainPrincipal == Owed(p.loanAmount, recs, j) - (pay - recs[j].interest))
  {
    FixedInstallmentFollows(p, pay, ws, ds);
    FixedInstallmentCharges(p, pay, ws, ds);
    FixedInstallmentPays(p, pay, ws, ds);
  }

  /** The schedule follows the windows and their day counts. */
  lemma {:induction false} FixedInstallmentFollows(p: PlanRequest, pay: real, ws: seq<Window>, ds: seq<int>)
    requires |ds| == |ws|
    ensures FollowsWindows(ws, ds, FixedInstallmentSchedule(p, pay, ws, ds, |ws|))
  {
    var recs := FixedInstallmentSchedule(p, pay, ws, ds, |ws|);
    forall j | 0 <= j < |ws|
      ensures OverWindow(ws[j], ds[j], j, recs[j])
    {
      FixedInstallmentRow(p, pay, ws, ds, j);
    }
  }

  /** Each period is charged the interest on what is owed before it, rounded half to even. */
  lemma {:induction false} FixedInstallmentCharges(p: PlanRequest, pay: real, ws: seq<Window>, ds: seq<int>)
    requires |ds| == |ws|
    ensures var recs := FixedInstallmentSchedule(p, pay, ws, ds, |ws|);
      forall j :: 0 <= j < |recs| ==>
        recs[j].interest == RoundBank(AccruedInterest(Owed(p.loanAmount, recs, j), p.daysInterestRate, recs[j].days))
  {
    var recs := FixedInstallmentSchedule(p, pay, ws, ds, |ws|);
    forall j | 0 <= j < |ws|
      ensures recs[j].interest == RoundBank(AccruedInterest(Owed(p.loanAmount, recs, j), p.daysInterestRate, recs[j].days))
    {
      FixedInstallmentRow(p, pay, ws, ds, j);
    }
  }

  /** Before the last period the amount due is the installment, and the part of it that is not interest repays principal. */
  lemma {:induction false} FixedInstallmentPays(p: PlanRequest, pay: real, ws: seq<Window>, ds: seq<int>)
    requires |ws| == p.totalPeriodNum && |ds| == |ws|
    ensures var recs := FixedInstallmentSchedule(p, pay, ws, ds, |ws|);
      forall j :: 0 <= j < |recs| - 1 ==>
        && recs[j].totalAmount == pay
        && recs[j].principal == Round(pay - recs[j].interest)
        && recs[j].maintainPrincipal == Owed(p.loanAmount, recs, j) - (pay - recs[j].interest)
  {
    var recs := FixedInstallmentSchedule(p, pay, ws, ds, |ws|);
    forall j | 0 <= j < |ws| - 1
      ensures && recs[j].totalAmount == pay
              && recs[j].principal == Round(pay - recs[j].interest)
              && recs[j].maintainPrincipal == Owed(p.loanAmount, recs, j) - (pay - recs[j].interest)
    {
      FixedInstallmentRow(p, pay, ws, ds, j);
    }
  }

  /** Row `j` of the schedule, as FixedInstallmentRecordRepays describes it for what is owed before it. */
  lemma {:induction false} FixedInstallmentRow(p: PlanRequest, pay: real, ws: seq<Window>, ds: seq<int>, j: int)
    requires |ds| == |ws| && 0 <= j < |ws|
    ensures var recs := FixedInstallmentSchedule(p, pay, ws, ds, |ws|);
      && OverWindow(ws[j], ds[j], j, recs[j])
      && recs[j].interest == RoundBank(AccruedInterest(Owed(p.loanAmount, recs, j), p.daysInterestRate, recs[j].days))
      && (j != p.totalPeriodNum - 1 ==>
            && recs[j].totalAmount == pay
            && recs[j].principal == Round(pay - recs[j].interest)
            && recs[j].maintainPrincipal == Owed(p.loanAmount, recs, j) - (pay - recs[j].interest))
  {
    var recs := FixedInstallmentSchedule(p, pay, ws, ds, |ws|);
    FixedInstallmentScheduleAt(p, pay, ws, ds, |ws|, j);
    FixedInstallmentRecordRepays(p, pay, ws[j], ds[j], j, Owed(p.loanAmount, recs, j), recs[j]);
  }

  /**
   * For a whole-cent loan and a whole-cent payment the schedule repays the
   * loan exactly: the last period leaves nothing owed, every period reduces
   * the balance by its principal and is due its interest plus its principal,
   * the principal over the schedule is the loan and the amount due is the
   * interest plus the loan.
   */
  lemma {:induction false} FixedInstallmentCloses(p: PlanRequest, pay: real, ws: seq<Window>, ds: seq<int>)
    requires p.totalPeriodNum >= 1 && |ws| == p.totalPeriodNum && |ds| == |ws|
    requires IsCents(p.loanAmount) && IsCents(pay)
    ensures var recs := FixedInstallmentSchedule(p, pay, ws, ds, |ws|);
      && recs[|recs| - 1].maintainPrincipal == 0.0
      && ReducesBalance(p.loanAmount, recs)
      && TotalsSplit(recs)
      && SumPrincipal(recs) == p.loanAmount
      && SumTotal(recs) == SumInterest(recs) + p.loanAmount
  {
    var n := |ws|;
    var recs := FixedInstallmentSchedule(p, pay, ws, ds, n);
    forall j | 0 <= j < n
      ensures recs[j].maintainPrincipal == Owed(p.loanAmount, recs, j) - recs[j].principal
      ensures recs[j].totalAmount == recs[j].interest + recs[j].principal
      ensures j == n - 1 ==> recs[j].maintainPrincipal == 0.0
    {
      FixedInstallmentScheduleAt(p, pay, ws, ds, n, j);
      FixedInstallmentOwedCents(p, pay, ws, ds, j);
      FixedInstallmentRecordCents(p, pay, ws[j], ds[j], j, Owed(p.loanAmount, recs, j), recs[j]);
    }
    ClearedScheduleTotals(p.loanAmount, recs);
  }

  /**
   * fixedInstallmentMethodPlan: fixes the payment, computes the plan's
   * windows, then the schedule over them, and stores the schedule and its
   * totals in the response.
   */
  method FixedInstallmentMethodPlan(p: PlanRequest, annuity: real, response: Response)
    requires ValidPlan(p) && p.totalPeriodNum != 0
    modifies response`planRepayRecords, response`totalRepayAmount, response`totalInterest
    ensures response.planRepayRecords
         == FixedInstallmentSchedule(p, FixedInstallmentAmount(p.loanAmount, p.periodInterestRate, p.totalPeriodNum, annuity),
                                     Windows(p), AccrualDays(Windows(p)), PeriodCount(p))
    ensures response.totalRepayAmount == SumTotal(response.planRepayRecords)
    ensures response.totalInterest == SumInterest(response.planRepayRecords)
  {
    var everyPeriodRepayAmount := FixedInstallmentAmount(p.loanAmount, p.periodInterestRate, p.totalPeriodNum, annuity);
    var dateMap := CalculatePeriodDate(p);
    var records, sumTotalRepayAmount, sumTotalInterest := FixedInstallmentLoop(p, everyPeriodRepayAmount, dateMap, AccrualDays(dateMap));
    response.planRepayRecords := records;
    response.totalRepayAmount := sumTotalRepayAmount;
    response.totalInterest := sumTotalInterest;
  }

  /**
   * The loop of fixedInstallmentMethodPlan over the windows `dateMap` of `ds`
   * accrual days each, every period being due `everyPeriodRepayAmount`.
   */
  method FixedInstallmentLoop(p: PlanRequest, everyPeriodRepayAmount: real, dateMap: seq<Window>, ghost ds: seq<int>)
    returns (records: seq<Record>, sumTotalRepayAmount: real, sumTotalInterest: real)
    requires |dateMap| == PeriodCount(p) && CountsDays(dateMap, ds)
    ensures records == FixedInstallmentSchedule(p, everyPeriodRepayAmount, dateMap, ds, PeriodCount(p))
    ensures sumTotalRepayAmount == SumTotal(records) && sumTotalInterest == SumInterest(records)
  {
    var hasRepayPrincipal;
    sumTotalInterest, hasRepayPrincipal, sumTotalRepayAmount := 0.0, 0.0, 0.0;
    records := [];
    var i := 0;
    while i < p.totalPeriodNum
      invariant 0 <= i <= |dateMap|
      invariant records == FixedInstallmentSchedule(p, everyPeriodRepayAmount, dateMap, ds, i)
      invariant hasRepayPrincipal == p.loanAmount - Owed(p.loanAmount, records, i)
      invariant sumTotalRepayAmount == SumTotal(records) && sumTotalInterest == SumInterest(records)
    {
      var record;
      record, hasRepayPrincipal := FixedInstallmentPeriod(p, everyPeriodRepayAmount, dateMap, ds, i, hasRepayPrincipal, Owed(p.loanAmount, records, i));
      sumTotalRepayAmount := sumTotalRepayAmount + record.totalAmount;
      sumTotalInterest := sumTotalInterest + record.interest;
      SumsAppend(records, record);
      FixedInstallmentScheduleSnoc(p, everyPeriodRepayAmount, dateMap, ds, i, record);
      records := records + [record];
      i := i + 1;
    }
    assert i == PeriodCount(p);
  }

  /**
   * One turn of the loop of fixedInstallmentMethodPlan: the record of period
   * `i` over window `dateMap[i]` when `owed` is still owed, and the principal repaid
   * once it is paid.
   */
  method FixedInstallmentPeriod(p: PlanRequest, everyPeriodRepayAmount: real, dateMap: seq<Window>, ghost ds: seq<int>, i: int, hasRepayPrincipal: real, ghost owed: real)
    returns (record: Record, hasAfter: real)
    requires CountsDays(dateMap, ds) && 0 <= i < |dateMap|
    requires owed == p.loanAmount - hasRepayPrincipal
    ensures record == FixedInstallmentRecord(p, everyPeriodRepayAmount, dateMap[i], ds[i], i, owed)
    ensures record.maintainPrincipal == p.loanAmount - hasAfter
  {
    var w := dateMap[i];
    var daysOfPeriod := DaysBetween(w.accrualStart, w.accrualEnd);
    assert daysOfPeriod == ds[i] by {
      assert ds[i] == WindowDays(dateMap[i]);
    }
    var periodRepayInterest := RoundBank(AccruedInterest(p.loanAmount - hasRepayPrincipal, p.daysInterestRate, daysOfPeriod));
    record := Record(i + 1, w.accrualStart, w.accrualEnd, daysOfPeriod, w.repayDate, 0.0, 0.0, periodRepayInterest, 0.0);
    hasAfter := hasRepayPrincipal;
    if i == p.totalPeriodNum - 1 {
      var remainPrinciple := p.loanAmount - hasAfter;
      record := record.(principal := RoundBank(remainPrinciple), totalAmount := periodRepayInterest + remainPrinciple);
      hasAfter := hasAfter + remainPrinciple;
    } else {
      var periodRepayPrinciple := everyPeriodRepayAmount - periodRepayInterest;
      hasAfter := hasAfter + periodRepayPrinciple;
      record := record.(principal := Round(periodRepayPrinciple), totalAmount := everyPeriodRepayAmount);
    }
    record := record.(maintainPrincipal := p.loanAmount - hasAfter);
  }
}
