# Repayment plan model

A Dafny model of the loan repayment schedule calculator in `plan/`.

Given a loan request, the calculator works in three stages:

1. **Validation.** `check` validates the request and fills in the default day count of a year (360).
2. **Date preparation.** For the four periodic repayment methods, `prepareGetParameter` does the following:
   - infers the first repay date;
   - infers the number of periods;
   - derives the loan end date;
   - computes the period and daily interest rates.
3. **Schedule building.** A per-method strategy builds the schedule: one record per period with principal, interest, amount due and remaining principal. The strategy also sets the response totals.

The model follows the code's own structure:

- **Request and response.** `Request` and `Response` are classes, because the code updates them in place:
  - `check` sets the day count;
  - `getLoanEndDate` rewrites the end date;
  - each strategy writes the records and totals.
- **Loops.** Each loop of the source is a method with its loop invariants. Each method is proved against a specification function: the schedule or the windows it computes.
- **Lemmas.** Lemmas state what those functions promise:
  - the records follow the windows;
  - the balance falls by each payment;
  - the last period clears the loan;
  - the totals are the sums of the records.
- **Dates.** A date is a civil `Date(year, month, day)`. It has a day number `Ord` in the proleptic Gregorian calendar. Go's `time.AddDate` normalisation of out-of-range months and days is modelled by `GoDate`.
- **Amounts.** Decimal amounts are `real`. There are two rounding functions to cents:
  - `Round` rounds half away from zero;
  - `RoundBank` rounds half to even.
- **Date strings.** A request date is a `DateText`: blank, a date, or text that does not parse.
- **Modules.** `Constants` and `Structs` transcribe `plan/constant.go` and `plan/struct.go`. `Calendar` and `Decimal` hold the date and rounding arithmetic the code takes from Go's `time` and shopspring's `decimal`. `Util` models `plan/util.go`. `Schedule` holds what every periodic schedule promises. There is one module per strategy file, and `RepaymentPlan` models `plan/calculate_repayment_plan.go`.

## Model

| member | source | states |
|---|---|---|
| Calendar.AddDate | plan/util.go:141-146 | Go's `AddDate` always gives a real date. With no year or month part it moves the day number by exactly `days`. |
| Calendar.AddDays | plan/util.go:221 | Counting `n` days from a date gives a real date whose day number is `n` more. |
| Calendar.GoDate | plan/util.go:144 | Go's date normalisation always gives a real date, and leaves an in-range year, month and day as they are. |
| Calendar.GoDateDayOverflow | plan/util.go:144-145 | A day beyond the month's length rolls into the next month as the day less that length, so the day differs from the one asked for. |
| Calendar.GoDateDayZeroOfNextMonth | plan/util.go:146 | Day 0 of the next month is the last day of this month. |
| Calendar.WeekdayAfter | plan/util.go:42 | A date `n` days later falls `n` weekdays later, modulo seven. |
| Calendar.Weekday | plan/util.go:42 | Go's `Weekday` is a number from 0 (Sunday) to 6. Go's zero time, 0001-01-01, is a Monday. |
| Calendar.EpochThursday | plan/util.go:41-42 | 1970-01-01, the Unix epoch, is a Thursday, as in Go. |
| Calendar.DaysInMonth | plan/util.go:144-146 | Every month has 28 to 31 days. |
| Calendar.Parse | plan/calculate_repayment_plan.go:37-40 | A date text parses exactly when it holds a real calendar date, and then yields that date. |
| Util.PinnedDate | plan/util.go:144-149 | A real date in the month with the given index. Its day is `day` when that month has it, and the month's last day otherwise. |
| Util.DateAddMonth | plan/util.go:139-150 | calculateDateAddMonth lands in the month `monthsNum` after that of `date`, on the pinned day. It never rolls into the following month, and the day of `date` plays no part. |
| Util.PinDay | plan/util.go:144-149 | From the first of a month, adding `day - 1` days and falling back to day 0 of the next month when the day changed gives that month's pinned date. |
| Util.PinnedDayResult | plan/util.go:144-149 | The same, stated on Go's `AddDate` calls themselves. |
| Util.FirstDayOfMonth | plan/util.go:141 | Going back `day - 1` days reaches the first of the month. |
| Util.FirstDayAddMonth | plan/util.go:143 | Adding whole months to the first of a month gives the first of the target month. |
| Util.PinnedDateIncreasing | plan/util.go:109-111 | Pinned dates strictly increase with the month index. |
| Util.WeekDayToDay | plan/util.go:165-184 | Go weekdays 0..6 (Sunday first) map to 1..7 (Monday 1, Sunday 7), congruent modulo seven. Anything else maps to 0. |
| Util.FirstRepayDateFortnightly | plan/util.go:37-53 | The first fortnightly repay date is a real date at least 7 days after the start. For a repay day of 1..7 it falls on that weekday, 7 to 20 days after the start. |
| Util.FortnightWeekday | plan/util.go:42-51 | The shift chosen from the weekday two weeks on lands on weekday `repayDay`. |
| Util.PinnedUnique | plan/util.go:54-71 | Two dates in the same month, both on the pinned repay day, are the same date. |
| Util.FirstRepayDateMonthly | plan/util.go:54-71 | The first monthly repay date lies at least 20 days after the start, at most two months later. It is on its month's pinned repay day. Every pinned repay day from the start's month up to it is under 20 days after the start, so it is the first that is not. |
| Util.CloseCandidateBumped | plan/util.go:62-68 | A start on or after the repay day, whose next-month candidate is under 20 days away, gets the repay day two months after its month. |
| Util.KeptCandidate | plan/util.go:57-63 | When the candidate is kept, no earlier month's pinned repay day, from the start's month on, is 20 or more days out. |
| Util.BumpedCandidate | plan/util.go:65-68 | When the candidate is under 20 days away, the pinned day one month later is at least 20 days after the start, and no earlier one is. |
| Util.BumpFromThisMonth | plan/util.go:57-59 | Next month's pinned repay day is at least 20 days after a start whose day is before the repay day. |
| Util.BumpFromNextMonth | plan/util.go:62-67 | Any day two months after the start's month is at least 20 days after the start. |
| Util.CycleOf | plan/util.go:28-35 | Exactly the fortnightly and monthly cycle codes have a date rule. |
| Util.CalculateFirstRepayDate | plan/util.go:27-36 | There is a date exactly for the two dated cycles. A monthly one is at least 20 days after the start. A fortnightly one with a repay day of 1 to 7 falls on that weekday. For a repay day of 1 or more, either is at least 7 days after the start. |
| Util.GetFirstRepayDate | plan/util.go:10-24 | The error is `EndDateError` exactly when a given end date does not parse, and `UnsupportedCycle` exactly when the cycle has no rule. Otherwise the result is the computed date clamped to the end date: never after a given end date, and the end date only when the computed date lies after it. |
| Util.FirstWindowForward | plan/util.go:10-24 | When the repay day is at least 1 and a given end date lies after the start, the first window counts at least one day. |
| Util.DueDateIncreasing | plan/util.go:205-214 | Due dates strictly increase with the period, and lie after the first repay date from period 1 on. |
| Util.FortnightlyDueDateIncreasing | plan/util.go:205-209 | Fortnightly due dates strictly increase with the period, and lie after the first repay date from period 1 on. |
| Util.MonthlyDueDateIncreasing | plan/util.go:210-214 | Monthly due dates strictly increase with the period, and lie after the first repay date from period 1 on. |
| Util.DueDate | plan/util.go:205-214 | A due date is a real calendar day. |
| Util.DueDateSteps | plan/util.go:205-214 | A fortnightly due date lies `14 × i` days after the base. A monthly one lies `i` months after the base's month, on the repay day pinned to that month. |
| Util.StepsBeforeEnd | plan/util.go:97-114 | When step `k` lies before the end date, so does every step from 1 to `k`. |
| Util.PeriodCountFound | plan/util.go:97-114 | The loop's exit test, together with its invariant, makes `k` the least count whose step reaches the end date. |
| Util.CalculateTotalPeriodNum | plan/util.go:88-117 | Gives `EndDateFormatError` when the end date does not parse. Otherwise gives a count of at least 1: for the dated cycles the least `k` whose step from the start reaches the end date, for any other cycle 1. |
| Util.CountFortnights | plan/util.go:95-106 | The loop stops at the least number of fortnights from the start that reaches the end date. |
| Util.CountMonths | plan/util.go:107-114 | The loop stops at the least number of months from the start whose pinned repay day reaches the end date. |
| Util.GetTotalPeriodNum | plan/util.go:73-87 | A non-zero `PeriodNum` gives 12 × `PeriodNum` for period type "01" and `PeriodNum` otherwise. A zero one gives the inferred count, or an error exactly when the end date does not parse. |
| Util.FortnightlyEndDate | plan/util.go:132-136 | The date `14 × periodNum` days after the first repay date, on the same weekday. |
| Util.FortnightsKeepWeekday | plan/util.go:132-136 | Whole fortnights keep the weekday. |
| Util.LoanEndDateFor | plan/util.go:122-127 | The due date of the given period for a dated cycle, and Go's zero time otherwise. |
| Util.EndDateForIsDue | plan/util.go:122-127 | For a dated cycle, the derived end date is that cycle's due date of the given period. |
| Util.GetLoanEndDateAsWritten | plan/util.go:119-131 | The code as written rewrites a blank end date, or any end date when a period count is given, to the due date of period `PeriodNum - 1`. Otherwise it keeps the end date. |
| Util.AsWrittenEndDateInvertsLastWindow | plan/util.go:119-131 | With a year-type period count, the as-written end date makes the last window end before it starts, with a day count below 1. |
| Util.YearsEndInvertsLastWindow | plan/util.go:119-131 | An end date at the due date of period `PeriodNum - 1`, in a plan of `12 × PeriodNum` periods, makes the last window end before it starts. |
| Util.EarlyEndInvertsLastWindow | plan/util.go:216-221 | Any end date that is the due date of a period three or more before the last makes the last window end before it starts. |
| Util.GetLoanEndDate | plan/util.go:119-131 | The corrected end date is the due date of the last period of the plan, `totalPeriodNum - 1`. The other cases are the same as the as-written one. |
| Util.EndDateKeepsWindowsForward | plan/util.go:119-131 | With the corrected end date, every window after the first ends no earlier than it starts, and counts at least one day. |
| Util.GivenEndDateInvertsWindow | plan/util.go:97-114 | A monthly loan from 2022-01-25 to 2022-03-15 on repay day 1 gets the first repay date 2022-03-01 and three periods. Its last window runs from 2022-04-01 back to 2022-03-14, a day count of -17. |
| Util.ExampleFirstRepayDate | plan/util.go:54-71 | From 2022-01-25 on repay day 1, the first monthly repay date is 2022-03-01. |
| Util.ExamplePeriodCount | plan/util.go:107-114 | From 2022-01-25 to 2022-03-15 on repay day 1, the monthly count is 3. |
| Util.ExampleLastWindow | plan/util.go:205-221 | With three periods from the first repay date 2022-03-01, the last window starts on 2022-04-01 and ends on 2022-03-14. |
| Util.ClampedFirstRepayDateOutlivesEnd | plan/util.go:19-21 | A monthly first repay date clamped to a day later in its month than the repay day gives a one-period end date on the repay day of that same month. That end date lies before the first repay date. |
| Util.EndBeforeRepayDate | plan/util.go:211-217 | An end date that is the due date of an earlier period lies before every later middle repay date. |
| Util.LastWindowInverts | plan/util.go:216-221 | An end date before the second-to-last repay date makes the last window end before it starts. |
| Util.WindowAfter | plan/util.go:206-222 | A window after the first starts on the previous repay date and ends the day before its own. |
| Util.RepayDateOf | plan/util.go:201-218 | A repay date is a real calendar day. Every repay date after the first, other than the last, lies after the first repay date. |
| Util.WindowOf | plan/util.go:195-222 | A window's accrual ends the day before its repay date. The first window starts on the loan start, and each later one on the previous period's repay date. |
| Util.WindowForward | plan/util.go:204-221 | When the end date is the last due date, each window after the first ends no earlier than it starts. |
| Util.LaterWindowForward | plan/util.go:205-221 | When the end date is the last due date, every window from the third on ends no earlier than it starts. |
| Util.MiddleRepayDate | plan/util.go:205-214 | A repay date strictly between the first and the last is the cycle's due date. |
| Util.LastRepayDate | plan/util.go:216-218 | With two or more periods, the last repay date is the loan end date. |
| Util.RepayDateIsDue | plan/util.go:205-218 | When the end date is the last due date, every repay date after the first is its cycle's due date. |
| Util.PeriodInterestRate | plan/util.go:152-160 | The period rate times 26 (fortnightly) or 12 (monthly), times 100, is the annual rate. It is 0 for any other cycle. |
| Util.DaysInterestRate | plan/util.go:161-163 | The daily rate times the days of the year, times 100, is the annual rate. |
| Util.DaysBetween | plan/util.go:186-192 | The inclusive day count is at least 1 exactly when the start is not after the end. |
| Util.DaysBetweenCounts | plan/util.go:186-192 | Counting one less than the day count from the start reaches the end, so both ends are included. |
| Util.Windows | plan/util.go:195-225 | One window per period, and window `i` is the window of period `i`. |
| Util.WindowsExtend | plan/util.go:222 | Appending the window of the next period keeps the windows those of the plan. |
| Util.CalculatePeriodDate | plan/util.go:195-225 | Gives exactly the plan's number of windows. The first runs from the loan start to the first repay date. Each later one starts on the previous repay date. Middle repay dates are the cycle's due dates. With two or more periods the last repay date is the loan end date. Accrual ends the day before each repay date. |
| Schedule.WindowDays | plan/fixedPrincipalMethod.go:26 | A window's day count is at least 1 exactly when it does not run backwards. |
| Schedule.AccrualDays | plan/beforeInterestAfterPrincipal.go:25 | Gives the day count of every window. |
| Schedule.PrincipalTelescopes | plan/fixedPrincipalMethod.go:52 | When each record's remaining principal is what was owed less its principal, the principal over the schedule is the loan less what is left. |
| Schedule.TotalsAdd | plan/fixedPrincipalMethod.go:55-57 | When each amount due is interest plus principal, so are their sums. |
| Schedule.ClearedScheduleTotals | plan/fixedPrincipalMethod.go:55-62 | A schedule that reduces the balance and clears it repays exactly the loan. Its amount due is its interest plus the loan. |
| Schedule.ConstantInterestSum | plan/equalPrincipalAndInterest.go:60 | `n` equal interest charges sum to `n` times that charge. |
| Structs.SumsAppend | plan/beforeInterestAfterPrincipal.go:49-53 | Appending a record adds its amounts to the three sums. |
| Structs.Request.constructor | plan/struct.go:8-19 | A request holds the given fields. |
| Structs.Response.constructor | plan/calculate_repayment_plan.go:138-145 | A response holds the request's terms and period count, with empty records and zero totals. |
| Decimal.Round | plan/beforeInterestAfterPrincipal.go:28 | `Round(2)` gives a whole number of cents within half a cent, and a half cent goes away from zero. |
| Decimal.RoundHalfUp | plan/beforeInterestAfterPrincipal.go:28 | Rounding half up gives a whole number of cents within half a cent, and a half cent goes up. |
| Decimal.RoundBank | plan/fixedPrincipalMethod.go:67 | `RoundBank(2)` gives a whole number of cents within half a cent, and a half cent goes to an even cent. |
| Decimal.RoundingFixesCents | plan/fixedPrincipalMethod.go:42 | Rounding an amount already in cents leaves it unchanged. |
| Decimal.CentsAddSub | plan/fixedPrincipalMethod.go:41 | Sums and differences of cent amounts are cent amounts. |
| FixedInstallment.FixedInstallmentAmount | plan/fixedInstallmentMethod.go:86-106 | At a zero period rate the installment is the loan over `n`, to the cent. At any other rate it is the given annuity. |
| FixedInstallment.FixedInstallmentSchedule | plan/fixedInstallmentMethod.go:34-76 | The schedule of the first `k` periods has `k` records. |
| FixedInstallment.FixedInstallmentScheduleAt | plan/fixedInstallmentMethod.go:43-68 | Record `j` is period `j`'s record on what is owed before it. |
| FixedInstallment.FixedInstallmentScheduleSnoc | plan/fixedInstallmentMethod.go:68-75 | Appending period `k`'s record on the balance left extends the schedule by one period. |
| FixedInstallment.FixedInstallmentRecord | plan/fixedInstallmentMethod.go:40-68 | The record lies over its window and counts its days. Its interest is the owed balance's interest to the cent. A non-last period is due the installment, repays its excess over the interest to the cent, and its balance falls by that excess. The last is due the balance plus its interest, repays the balance to the cent and leaves 0. |
| FixedInstallment.FixedInstallmentRecordRepays | plan/fixedInstallmentMethod.go:43-68 | Each period's interest is `RoundBank` of the owed balance × the daily rate × its days. A non-last period is due the installment, and its balance falls by the installment less the interest; its principal is that amount to the cent. The last repays the balance to the cent, is due the interest plus the balance, and leaves nothing. |
| FixedInstallment.FixedInstallmentRecordCents | plan/fixedInstallmentMethod.go:55-68 | On cent amounts, each record's amount due is interest plus principal, and the balance falls by the principal. |
| FixedInstallment.FixedInstallmentOwedCents | plan/fixedInstallmentMethod.go:68 | On a cent loan and installment, every balance is in cents. |
| FixedInstallment.FixedInstallmentRows | plan/fixedInstallmentMethod.go:34-76 | The schedule follows the windows. Each period is charged `RoundBank` interest on its balance. Each non-last period is due the installment. |
| FixedInstallment.FixedInstallmentFollows | plan/fixedInstallmentMethod.go:45-52 | Records are numbered 1..n over the windows and their day counts. |
| FixedInstallment.FixedInstallmentCharges | plan/fixedInstallmentMethod.go:43 | Each period's interest is on the loan less the principal repaid so far. |
| FixedInstallment.FixedInstallmentPays | plan/fixedInstallmentMethod.go:60-66 | Each non-last period is due the installment, and repays its excess over the interest. |
| FixedInstallment.FixedInstallmentRow | plan/fixedInstallmentMethod.go:40-68 | The facts above for one row. |
| FixedInstallment.FixedInstallmentCloses | plan/fixedInstallmentMethod.go:55-80 | On cent amounts the last balance is 0, and every period reduces the balance and splits its amount due. The principal sums to the loan, and the amount due to the interest plus the loan. |
| FixedInstallment.FixedInstallmentMethodPlan | plan/fixedInstallmentMethod.go:21-83 | The response holds the schedule over the plan's windows at the installment FixedInstallmentAmount gives, and its totals are the schedule's sums. |
| FixedInstallment.FixedInstallmentLoop | plan/fixedInstallmentMethod.go:34-76 | The loop builds that schedule and keeps the two sums equal to the sums of its records. |
| FixedInstallment.FixedInstallmentPeriod | plan/fixedInstallmentMethod.go:35-68 | One loop turn builds period `i`'s record, and keeps `hasRepayPrincipal` equal to the loan less the new balance. |
| FixedPrincipal.FixedPrincipalAmount | plan/fixedPrincipalMethod.go:66-68 | The principal share is `RoundBank` of the loan over `n`: cents, within half a cent. |
| FixedPrincipal.FixedPrincipalSchedule | plan/fixedPrincipalMethod.go:20-59 | The schedule of the first `k` periods has `k` records. |
| FixedPrincipal.FixedPrincipalScheduleAt | plan/fixedPrincipalMethod.go:40-52 | Record `j` is charged on the loan less `j` principal shares. |
| FixedPrincipal.FixedPrincipalRecord | plan/fixedPrincipalMethod.go:26-52 | The record lies over its window and counts its days. Its interest is the owed balance's interest to the cent. A non-last period repays the share, is due the share plus the interest, and its balance falls by the share. The last is due the balance plus its interest, repays the balance to the cent and leaves 0. |
| FixedPrincipal.FixedPrincipalRecordRepays | plan/fixedPrincipalMethod.go:40-52 | A non-last period repays the share and is due interest plus share. The last repays what is owed and leaves nothing. |
| FixedPrincipal.FixedPrincipalLastRecord | plan/fixedPrincipalMethod.go:40-44 | On a cent balance the last principal is exactly the balance. |
| FixedPrincipal.FixedPrincipalRecordInterest | plan/fixedPrincipalMethod.go:26-28 | Interest is `RoundBank` of the balance × the daily rate × the days. |
| FixedPrincipal.FixedPrincipalRows | plan/fixedPrincipalMethod.go:20-59 | The schedule follows the windows. Interest is on the balance. Every non-last period repays the same share, and its balance falls by it. |
| FixedPrincipal.FixedPrincipalRow | plan/fixedPrincipalMethod.go:26-52 | The facts above for one row. |
| FixedPrincipal.FixedPrincipalOwed | plan/fixedPrincipalMethod.go:47-52 | Before period `j` the balance is the loan less `j` shares. |
| FixedPrincipal.SharesCents | plan/fixedPrincipalMethod.go:47 | Any number of cent shares is in cents. |
| FixedPrincipal.FixedPrincipalCloses | plan/fixedPrincipalMethod.go:40-62 | On a cent loan the last balance is 0, and every period reduces the balance and splits its amount due. The principal sums to the loan, and the amount due to the interest plus the loan. |
| FixedPrincipal.FixedPrincipalRowSplits | plan/fixedPrincipalMethod.go:40-52 | On a cent loan, one row reduces the balance and splits its amount due, and the last row leaves 0. |
| FixedPrincipal.FixedPrincipalScheduleSnoc | plan/fixedPrincipalMethod.go:58 | Appending period `k`'s record extends the schedule by one period. |
| FixedPrincipal.FixedPrincipalMethodPlan | plan/fixedPrincipalMethod.go:12-65 | The response holds the schedule over the plan's windows, and its totals are the schedule's sums. |
| FixedPrincipal.FixedPrincipalLoop | plan/fixedPrincipalMethod.go:20-59 | The loop builds that schedule and keeps the sums equal to the sums of its records. |
| FixedPrincipal.FixedPrincipalPeriod | plan/fixedPrincipalMethod.go:21-52 | One loop turn builds period `i`'s record. Principal repaid so far grows by the share, or reaches the loan in the last period. |
| EqualPrincipalAndInterest.EqualPrincipalAmount | plan/equalPrincipalAndInterest.go:17 | The principal share is the loan over `n`, to the cent. |
| EqualPrincipalAndInterest.EqualInterestAmount | plan/equalPrincipalAndInterest.go:19-23 | The interest charge is the loan's interest over the whole loan term's days, over `n`, to the cent. |
| EqualPrincipalAndInterest.EqualPrincipalAndInterestSchedule | plan/equalPrincipalAndInterest.go:27-63 | The schedule of the first `k` periods has `k` records. |
| EqualPrincipalAndInterest.EqualPrincipalAndInterestSchedulePrefix | plan/equalPrincipalAndInterest.go:62 | A longer schedule begins with the shorter one. |
| EqualPrincipalAndInterest.EqualPrincipalAndInterestScheduleAt | plan/equalPrincipalAndInterest.go:34-55 | Record `j` is period `j`'s record on what is owed before it. |
| EqualPrincipalAndInterest.EqualPrincipalAndInterestRecord | plan/equalPrincipalAndInterest.go:32-55 | The record lies over its window and is charged the fixed interest. It repays the share, or all that is owed in the last period. It is due its principal plus interest, and its balance falls by its principal. |
| EqualPrincipalAndInterest.EqualPrincipalAndInterestScheduleSnoc | plan/equalPrincipalAndInterest.go:62 | Appending period `k`'s record extends the schedule by one period. |
| EqualPrincipalAndInterest.EqualPrincipalAndInterestRows | plan/equalPrincipalAndInterest.go:27-63 | The schedule follows the windows, and every period is charged the same interest. Each non-last period repays the share and is due interest plus share. The last repays what is owed and leaves 0. The schedule reduces the balance and splits its amounts due. |
| EqualPrincipalAndInterest.EqualPrincipalAndInterestCharges | plan/equalPrincipalAndInterest.go:40 | Every record carries the one interest charge. |
| EqualPrincipalAndInterest.EqualPrincipalAndInterestCloses | plan/equalPrincipalAndInterest.go:43-66 | The principal sums to the loan. The interest sums to `n` times the charge, and the amount due to that plus the loan. |
| EqualPrincipalAndInterest.EqualPrincipalAndInterestPlan | plan/equalPrincipalAndInterest.go:12-69 | The response holds the schedule over the plan's windows with the rounded share and charge, and its totals are the schedule's sums. |
| EqualPrincipalAndInterest.EqualPrincipalAndInterestLoop | plan/equalPrincipalAndInterest.go:27-63 | The loop builds that schedule and keeps the sums equal to the sums of its records. |
| EqualPrincipalAndInterest.EqualPrincipalAndInterestPeriod | plan/equalPrincipalAndInterest.go:28-55 | One loop turn builds period `i`'s record, and keeps `hasRepayPrincipal` equal to the loan less the new balance. |
| BeforeInterestAfterPrincipal.BeforeInterestAfterPrincipalSchedule | plan/beforeInterestAfterPrincipal.go:19-54 | The schedule of the first `k` periods has `k` records. |
| BeforeInterestAfterPrincipal.BeforeInterestAfterPrincipalScheduleAt | plan/beforeInterestAfterPrincipal.go:25-47 | Record `j` is period `j`'s record. |
| BeforeInterestAfterPrincipal.BeforeInterestAfterPrincipalRecord | plan/beforeInterestAfterPrincipal.go:25-47 | The record lies over its window. Its interest is the whole loan's interest over its days, to the cent. It repays nothing before the last period and the loan in the last. It is due its principal plus interest, and the loan less its principal remains. |
| BeforeInterestAfterPrincipal.BeforeInterestAfterPrincipalRows | plan/beforeInterestAfterPrincipal.go:19-54 | The schedule follows the windows. Each period is charged the interest on the whole loan over its days, to the cent. Before the last period nothing is repaid and the whole loan is owed. The last repays the loan and leaves 0. |
| BeforeInterestAfterPrincipal.BeforeInterestAfterPrincipalCloses | plan/beforeInterestAfterPrincipal.go:39-57 | The schedule reduces the balance and splits its amounts due. The principal sums to the loan, and the amount due to the interest plus the loan. |
| BeforeInterestAfterPrincipal.BeforeInterestAfterPrincipalPlan | plan/beforeInterestAfterPrincipal.go:12-60 | The response holds the schedule over the plan's windows, and its totals are the schedule's sums. |
| BeforeInterestAfterPrincipal.BeforeInterestAfterPrincipalLoop | plan/beforeInterestAfterPrincipal.go:19-54 | The loop builds that schedule and keeps the sums equal to the sums of its records. |
| BeforeInterestAfterPrincipal.BeforeInterestAfterPrincipalPeriod | plan/beforeInterestAfterPrincipal.go:20-47 | One loop turn builds period `i`'s record. |
| BothPrincipalAndInterest.ParseOrZero | plan/bothPrincipalAndInterest.go:14-15 | A request date is read as its parsed date, or as Go's zero time when it does not parse. |
| BothPrincipalAndInterest.SinglePeriodWindow | plan/bothPrincipalAndInterest.go:20 | The single window's dates are real dates. |
| BothPrincipalAndInterest.SinglePeriodWindowDays | plan/bothPrincipalAndInterest.go:20-23 | The window runs from the start date to the day before the end date, which is the repay date. Its day count is end less start, and counting that many days from the start reaches the end. It is at least 1 when the start is before the end. |
| BothPrincipalAndInterest.WindowDaysToRepayDate | plan/bothPrincipalAndInterest.go:20-23 | A window ending the day before its repay date counts the days from its start to the repay date, and that many days from the start reach the repay date. |
| BothPrincipalAndInterest.BothPrincipalAndInterestRecord | plan/bothPrincipalAndInterest.go:23-39 | The record is period 1 over the window. Its interest is the loan's interest over the days, to the cent. It repays the whole loan, leaves 0, and is due the loan plus the interest. |
| BothPrincipalAndInterest.BothPrincipalAndInterestInterest | plan/bothPrincipalAndInterest.go:26 | The record is period 1 over the window. Its interest is in cents, within half a cent of loan × daily rate × days. |
| BothPrincipalAndInterest.BothPrincipalAndInterestCloses | plan/bothPrincipalAndInterest.go:29-39 | The record repays the whole loan and leaves 0. It reduces the balance and splits its amount due, and its sums are its interest and its interest plus the loan. |
| BothPrincipalAndInterest.BothPrincipalAndInterestPlan | plan/bothPrincipalAndInterest.go:13-53 | A fresh one-period response holds the single record and the request's terms, with totals equal to the record's sums. |
| RepaymentPlan.CheckLoanCycleCode | plan/calculate_repayment_plan.go:69-76 | Accepts exactly the five cycle codes 01 to 05. Otherwise the error is the cycle code error. |
| RepaymentPlan.CheckPeriodType | plan/calculate_repayment_plan.go:77-84 | Accepts exactly period types 01 and 02. |
| RepaymentPlan.DatedCyclesPassGuard | plan/calculate_repayment_plan.go:69-76 | Both dated cycles pass the guard. The accepted codes without a date rule are 01, 04 and 05. |
| RepaymentPlan.Check | plan/calculate_repayment_plan.go:17-68 | A zero day count becomes 360, and any other is kept. Each error is returned exactly when its guard fails and every earlier guard passed, in the code's order. There is no error exactly when the request passes every guard. |
| RepaymentPlan.PrepareGetParameter | plan/calculate_repayment_plan.go:115-160 | Fails with the start-date error or the first-repay-date error, leaving the request alone. Otherwise it succeeds exactly for the dated cycles. It then prepares the plan and a response carrying the request's terms. |
| RepaymentPlan.PreparePlan | plan/calculate_repayment_plan.go:125-159 | Builds the plan from the first repay date, the period count, the rewritten end date and the two rates, and builds the response. |
| RepaymentPlan.ResolvePeriods | plan/calculate_repayment_plan.go:125-127 | The period count is as getTotalPeriodNum gives it. The end date is rewritten from the corrected derivation exactly when getLoanEndDate would rewrite it. |
| RepaymentPlan.PreparedWindowsForward | plan/calculate_repayment_plan.go:125-129 | With a derived end date, every window after the first of a prepared plan counts at least one day. |
| RepaymentPlan.PreparedFirstWindowForward | plan/calculate_repayment_plan.go:120-124 | When the repay day is at least 1 and a given end date lies after the start, as `check` demands, the first window of a prepared plan counts at least one day. |
| RepaymentPlan.PeriodCountPositive | plan/calculate_repayment_plan.go:57-61 | A request that passed the guard gets a plan of at least one period. |
| RepaymentPlan.PeriodicSchedule | plan/calculate_repayment_plan.go:94-109 | Each periodic method's schedule has one record per period. |
| RepaymentPlan.FillSchedule | plan/calculate_repayment_plan.go:94-109 | Runs the method's strategy into the response. It leaves the response's terms unchanged and sets records and totals to the schedule and its sums. |
| RepaymentPlan.PeriodicPlan | plan/calculate_repayment_plan.go:89-109 | Fails with `UnsupportedCycle` exactly for a cycle without a date rule. Otherwise gives a fresh response with at least one period, the method's schedule over the prepared plan, and totals equal to its sums. |
| RepaymentPlan.GetRepaymentPlan | plan/calculate_repayment_plan.go:86-114 | An unknown method code gives the method error and no response. Method "3" gives the single-period plan. The periodic methods behave as PeriodicPlan. |
| RepaymentPlan.CalculateRepaymentPlan | plan/calculate_repayment_plan.go:9-14 | A request that fails the guard gets an error and no response. A checked one gets the method error, the unsupported-cycle error, or a fresh response. That response has one record per period, at least one period, and totals equal to the sums of the records. |

## Left out

- Time zones, daylight saving time and `time.Unix` round trips are not modelled. Dates are whole calendar days, and `getDaysBetweenDate` counts days, not seconds divided by 86400.
- Formatting dates to strings is not modelled. Parsing is abstracted: a request date is blank, a date, or text that does not parse. Go's four-digit year limit is not modelled.
- Division is exact real division. shopspring's `Div` keeps 16 fractional digits; that precision is not modelled.
- The installment at a non-zero period rate is not modelled. The code computes it with `strconv.ParseFloat` and `math.Pow` on floating point (plan/fixedInstallmentMethod.go:92-104). Here it is the parameter `annuity`, and so is the `ParseFloat` error path.
- Cycles 01, 04 and 05 have no date rule. Go then uses its zero time as the first repay date. Here `Util.CalculateFirstRepayDate` gives no date and `Util.GetFirstRepayDate` gives `UnsupportedCycle`, so the request ends with that error.
- RepaymentPlan.PeriodicPlan returns the preparation error with no response. In Go, `getRepaymentPlan` passes the nil response on to the strategy, which writes through it and panics.
- RepaymentPlan.ResolvePeriods: the period-count error that `prepareGetParameter` discards (plan/calculate_repayment_plan.go:125) arises only for requests `check` rejects: a period count of 0 with a blank end date, which `calculateTotalPeriodNum` cannot parse (plan/util.go:90-92). The model gives such a request a count of 0 and no error, as the code does. The end-date parse error after the rewrite cannot arise, and is not modelled as an error.
- RepaymentPlan.ResolvePeriods derives the end date with the corrected `Util.GetLoanEndDate`, from the plan's own last period `totalPeriodNum - 1`. The code uses `PeriodNum - 1` (plan/util.go:124,126). RepaymentPlan.PreparePlan, RepaymentPlan.PrepareGetParameter, RepaymentPlan.PeriodicPlan, RepaymentPlan.GetRepaymentPlan and RepaymentPlan.CalculateRepaymentPlan inherit this through `Prepared`. They differ from the code only for period type "01" (years) with a non-zero period count. That case is the one in "## Findings"; `Util.GetLoanEndDateAsWritten` models the code's rule.
- Util.EndDateKeepsWindowsForward and RepaymentPlan.PreparedWindowsForward cover only plans whose end date is derived from the period count. With a given end date and a period count of 0, the count steps from the loan start (plan/util.go:99,109), but the due dates step from the first repay date (plan/util.go:207,211). A window can then run backwards. `Util.GivenEndDateInvertsWindow` shows one: a monthly loan from 2022-01-25 to 2022-03-15 on repay day 1. Its last window runs from 2022-04-01 to 2022-03-14, a day count of -17. The code's intent here is unclear, so no corrected rule is modelled.
- A first repay date clamped to a given end date is not a due date. With a period count of 1 the derived end date can then fall before the only repay date. `Util.ClampedFirstRepayDateOutlivesEnd` shows this for a loan from 2022-01-25 to 2022-02-10 on repay day 1: the end date becomes 2022-02-01. The one window, from the start to the first repay date, still runs forward (`RepaymentPlan.PreparedFirstWindowForward`). The end date is reported as it is, and `EqualInterestAmount` counts interest up to it (plan/equalPrincipalAndInterest.go:19-23).
- RepaymentPlan.GetRepaymentPlan requires a checked request and a non-zero day count, as its only caller `CalculateRepaymentPlan` guarantees.
- BothPrincipalAndInterest.BothPrincipalAndInterestPlan requires a non-zero day count, which `check` guarantees.
- FixedInstallment.FixedInstallmentCloses requires the loan and the installment in whole cents. FixedPrincipal.FixedPrincipalCloses requires the loan in whole cents. For other amounts the last record's `RoundBank` principal differs from the balance it clears, and the balance property does not hold.
- `plan/calculate_repayment_plan_test.go` is a printing harness without assertions and is not part of this model.

## Findings

| source | as written | input that shows it | evidently intended | confidence | as-written member | corrected member |
|---|---|---|---|---|---|---|
| plan/util.go:119-131 | `getLoanEndDate` derives the end date from `request.PeriodNum - 1`, even when the period type is "01" (years) and the plan has `12 × PeriodNum` periods | monthly cycle, `PeriodType` "01", `PeriodNum` 1, no end date: the end date becomes the first repay date. The last of the 12 windows then starts on the eleventh due date and ends the day before the first one, with a day count below 1. | the end date is the due date of the plan's last period, `totalPeriodNum - 1`. Every window then runs forward and counts at least one day. | not executed | Util.GetLoanEndDateAsWritten, Util.AsWrittenEndDateInvertsLastWindow | Util.GetLoanEndDate, Util.EndDateKeepsWindowsForward |
