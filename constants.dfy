/** The code tables and numeric defaults of the plan (plan/constant.go). */
module Constants {

  // Repayment methods.
  const EqualLoanRepayment: string := "1"            // equal instalments (annuity)
  const EqualPrincipalRepayment: string := "2"       // equal principal
  const BothPrincipalAndInterest: string := "3"      // interest with principal, one period
  const BeforeInterestAfterPrincipal: string := "4"  // interest first, principal at maturity
  const EqualPrincipalAndInterest: string := "5"     // equal principal and equal interest

  // Days in a year when the request gives none, fortnights and months in a year.
  const DaysOfYear: int := 360
  const NumberOfWeek: int := 26
  const NumberOfMonth: int := 12

  // Repayment cycles.
  const LoanCycleDaily: string := "01"
  const LoanCycleFortnightly: string := "02"
  const LoanCycleMonthly: string := "03"
  const LoanCycleQuarterly: string := "04"
  const LoanCycleYearly: string := "05"

  // Units of the requested period count.
  const PeriodTypeYear: string := "01"
  const PeriodTypeMonth: string := "02"
}
