/**
 * Formulas that the dashboard pages (overview, stats, balance) each write out
 * inline: the 30-day activity clamp and the linear 2% daily accrual.
 */
module Dashboard {
  import opened Wrappers
  import opened Auth
  import Investment

  /** Length of an investment cycle, in days. */
  const CycleDays: int := 30

  /** The daily rate as a fraction: the pages write `0.02`. */
  const DailyRate: real := 0.02

  function Min(a: int, b: int): int {
    if a <= b then a else b
  }

  /** The pages' `0.02` is the library's daily rate of 2 percent. */
  lemma DailyRateIsLibraryRate()
    ensures DailyRate == Investment.DailyProfitRate() / 100.0
  {
  }

  /**
   * `daysActive`: whole days elapsed since the first investment, capped at the
   * cycle length; 0 with no first investment. `Math.floor` of the quotient is
   * Dafny's `/` here, since the divisor is positive.
   */
  function DaysActive(firstInvestmentDate: Option<int>, now: int): (d: int)
    ensures firstInvestmentDate.None? ==> d == 0
    ensures d <= CycleDays
    ensures firstInvestmentDate.Some? ==>
              var elapsed := now - firstInvestmentDate.value;
              || (d == CycleDays && CycleDays * MsPerDay <= elapsed)
              || (d * MsPerDay <= elapsed < (d + 1) * MsPerDay)
    ensures firstInvestmentDate.Some? && firstInvestmentDate.value <= now ==> 0 <= d
  {
    match firstInvestmentDate
    case None => 0
    case Some(t) => Min(CycleDays, (now - t) / MsPerDay)
  }

  /** Simple (not compound) accrual: principal times the daily rate times the days. */
  function Accrual(principal: real, days: int): (r: real)
    ensures r * 50.0 == principal * days as real
    ensures 0.0 <= principal && 0 <= days ==> 0.0 <= r
  {
    principal * DailyRate * days as real
  }

  /** Accrual is linear in the days: each further day adds the same daily amount. */
  lemma AccrualIsLinear(principal: real, days: nat)
    ensures Accrual(principal, days) == days as real * Accrual(principal, 1)
    ensures Accrual(principal, days + 1) - Accrual(principal, days) == Accrual(principal, 1)
  {
  }

  /** Right after logging in, the fixed accounts have been active 15 and 10 days. */
  lemma LoginDaysActive(now: int)
    ensures DaysActive(LoginAccount(AdminEmail, AdminPassword, now).value.firstInvestmentDate, now) == 15
    ensures DaysActive(LoginAccount(DemoEmail, DemoPassword, now).value.firstInvestmentDate, now) == 10
  {
  }
}
