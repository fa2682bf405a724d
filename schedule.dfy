/**
 * What every periodic repayment plan promises about its records: numbered
 * periods over the accrual windows, a balance that each principal payment
 * reduces, and totals made of interest and principal. The lemmas turn these
 * into statements about the response totals.
 */
module Schedule {
  import opened Calendar
  import opened Structs
  import opened Util

  /** The principal owed before period `k` (from 0): the loan, then the previous record's balance. */
  function Owed(loan: real, recs: seq<Record>, k: int): real
    requires 0 <= k <= |recs|
  {
    if k == 0 then loan else recs[k - 1].maintainPrincipal
  }

  /** Each record's remaining principal is what was owed before it less the principal it repays. */
  predicate ReducesBalance(loan: real, recs: seq<Record>) {
    forall k :: 0 <= k < |recs| ==> recs[k].maintainPrincipal == Owed(loan, recs, k) - recs[k].principal
  }

  /** Each record's amount due is its interest plus its principal. */
  predicate TotalsSplit(recs: seq<Record>) {
    forall k :: 0 <= k < |recs| ==> recs[k].totalAmount == recs[k].interest + recs[k].principal
  }

  /** The interest accrued on `balance` at `dailyRate` over `days` days, before rounding. */
  function AccruedInterest(balance: real, dailyRate: real, days: int): real {
    balance * dailyRate * days as real
  }

  /** getDaysBetweenDate on a window: its accrual days, both ends included. */
  function WindowDays(w: Window): (r: int)
    requires ValidDate(w.accrualStart) && ValidDate(w.accrualEnd)
    ensures r >= 1 <==> Ord(w.accrualStart) <= Ord(w.accrualEnd)
  {
    DaysBetween(w.accrualStart, w.accrualEnd)
  }

  /**
   * `ds` holds the accrual days of each window of `ws`. The trigger keeps the
   * day arithmetic out of a proof until a window's days are asked for.
   */
  predicate CountsDays(ws: seq<Window>, ds: seq<int>) {
    && |ds| == |ws|
    && ValidWindows(ws)
    && forall i {:trigger WindowDays(ws[i])} :: 0 <= i < |ws| ==> ds[i] == WindowDays(ws[i])
  }

  /** The accrual days of each window. */
  function AccrualDays(ws: seq<Window>): (ds: seq<int>)
    requires ValidWindows(ws)
    ensures CountsDays(ws, ds)
  {
    seq(|ws|, i requires 0 <= i < |ws| => WindowDays(ws[i]))
  }

  /** Record `r` is period `k + 1` (counting from 0) over window `w` of `days` accrual days. */
  predicate OverWindow(w: Window, days: int, k: int, r: Record) {
    && r.periodNum == k + 1
    && r.startDate == w.accrualStart
    && r.endDate == w.accrualEnd
    && r.repayDate == w.repayDate
    && r.days == days
  }

  /** Every record lies over the window of its position and counts that window's days. */
  predicate FollowsWindows(ws: seq<Window>, ds: seq<int>, recs: seq<Record>) {
    && |recs| <= |ws| && |recs| <= |ds|
    && forall k :: 0 <= k < |recs| ==> OverWindow(ws[k], ds[k], k, recs[k])
  }

  /** The record for period `k + 1` over window `w` of `days` days, with the given amounts. */
  function RecordOver(w: Window, days: int, k: int, totalAmount: real, principal: real, interest: real, maintainPrincipal: real): Record {
    Record(k + 1, w.accrualStart, w.accrualEnd, days, w.repayDate, totalAmount, principal, interest, maintainPrincipal)
  }

  /**
   * When every record reduces the balance by its principal, the principal
   * over the schedule is the loan less the balance left after it.
   */
  lemma {:induction false} PrincipalTelescopes(loan: real, recs: seq<Record>)
    requires ReducesBalance(loan, recs)
    ensures SumPrincipal(recs) == loan - Owed(loan, recs, |recs|)
    decreases |recs|
  {
    if recs != [] {
      var n := |recs|;
      var front := recs[..n - 1];
      assert ReducesBalance(loan, front) by {
        forall k | 0 <= k < |front|
          ensures front[k].maintainPrincipal == Owed(loan, front, k) - front[k].principal
        {
          assert front[k] == recs[k];
          assert Owed(loan, front, k) == Owed(loan, recs, k);
        }
      }
      PrincipalTelescopes(loan, front);
      assert Owed(loan, front, n - 1) == Owed(loan, recs, n - 1);
    }
  }

  /** When every amount due is interest plus principal, so is their sum. */
  lemma {:induction false} TotalsAdd(recs: seq<Record>)
    requires TotalsSplit(recs)
    ensures SumTotal(recs) == SumInterest(recs) + SumPrincipal(recs)
    decreases |recs|
  {
    if recs != [] {
      var front := recs[..|recs| - 1];
      assert TotalsSplit(front) by {
        forall k | 0 <= k < |front|
          ensures front[k].totalAmount == front[k].interest + front[k].principal
        {
          assert front[k] == recs[k];
        }
      }
      TotalsAdd(front);
    }
  }

  /**
   * A schedule that reduces the balance, splits its totals and clears the
   * loan repays exactly the loan: its principal is the loan and the amount
   * due over it is its interest plus the loan.
   */
  lemma ClearedScheduleTotals(loan: real, recs: seq<Record>)
    requires recs != [] && ReducesBalance(loan, recs) && TotalsSplit(recs)
    requires recs[|recs| - 1].maintainPrincipal == 0.0
    ensures SumPrincipal(recs) == loan
    ensures SumTotal(recs) == SumInterest(recs) + loan
  {
    PrincipalTelescopes(loan, recs);
    TotalsAdd(recs);
  }

  /** When each of the `n` records is charged the same interest, the interest over the schedule is `n` times that interest. */
  lemma {:induction false} ConstantInterestSum(recs: seq<Record>, interest: real, n: int)
    requires n == |recs|
    requires forall k :: 0 <= k < |recs| ==> recs[k].interest == interest
    ensures SumInterest(recs) == n as real * interest
    decreases |recs|
  {
    if recs != [] {
      var front := recs[..|recs| - 1];
      assert forall k :: 0 <= k < |front| ==> front[k].interest == interest by {
        forall k | 0 <= k < |front|
          ensures front[k].interest == interest
        {
          assert front[k] == recs[k];
        }
      }
      ConstantInterestSum(front, interest, n - 1);
      assert n as real * interest == (n - 1) as real * interest + interest;
    }
  }
}
