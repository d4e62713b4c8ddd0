/** The figures computed on the balance page (app/dashboard/balance/page.tsx). */
module BalancePage {
  import opened Wrappers
  import opened Auth
  import opened Users
  import opened Dashboard
  import Investment

  /** `totalBalance`: principal, profit and referral bonus together. */
  function TotalBalance(d: UserData): (t: real)
    ensures 0.0 <= d.invested && 0.0 <= d.profit && 0.0 <= d.referralBonus ==>
              0.0 <= t && d.invested <= t && d.profit <= t && d.referralBonus <= t
  {
    d.invested + d.profit + d.referralBonus
  }

  /** An accepted investment raises the total balance by its amount; a withdrawal lowers it by its amount. */
  lemma TotalBalanceFollowsLedger(u: UserRecord, amount: real, now: int, later: int)
    ensures var r := Investment.Invest(Some(u), amount, now);
            r.Success? ==>
              TotalBalance(GetUserData(Some(r.value), later))
                == TotalBalance(GetUserData(Some(u), later)) + amount
    ensures var r := Investment.Withdraw(Some(u), amount);
            r.Success? ==>
              TotalBalance(GetUserData(Some(r.value), later))
                == TotalBalance(GetUserData(Some(u), later)) - amount
  {
  }

  /** `(invested * 1.6)`: the principal plus a full cycle of simple accrual. */
  function ProjectedFinalValue(invested: real): (v: real)
    ensures v == invested + Accrual(invested, CycleDays)
  {
    invested * 1.6
  }

  /** `(daysActive / 30) * 100`: how far through the cycle, in percent. */
  function CycleProgress(daysActive: int): (p: real)
    ensures p * CycleDays as real == daysActive as real * 100.0
    ensures daysActive <= CycleDays ==> p <= 100.0
    ensures 0 <= daysActive ==> 0.0 <= p
  {
    daysActive as real / 30.0 * 100.0
  }

  /** The progress bar never runs past 100 percent. */
  lemma CycleProgressAtMostFull(firstInvestmentDate: Option<int>, now: int)
    ensures CycleProgress(DaysActive(firstInvestmentDate, now)) <= 100.0
  {
  }

  datatype ForecastRow = ForecastRow(days: int, gain: real)

  /** The "Profit Forecast" card: shown only when something is invested. */
  function Forecast(invested: real): (rows: Option<seq<ForecastRow>>)
    ensures rows.Some? <==> invested > 0.0
    ensures rows.Some? ==>
              && |rows.value| == 5
              && rows.value[0].days == 7 && rows.value[1].days == 14 && rows.value[2].days == 30
              && rows.value[3].days == 60 && rows.value[4].days == 90
              && forall k :: 0 <= k < 5 ==> rows.value[k].gain == Accrual(invested, rows.value[k].days)
  {
    if invested > 0.0 then
      Some([ ForecastRow(7, invested * 0.14), ForecastRow(14, invested * 0.28),
             ForecastRow(30, invested * 0.6), ForecastRow(60, invested * 1.2),
             ForecastRow(90, invested * 1.8) ])
    else None
  }

  datatype InvestmentDetail = InvestmentDetail(
    amount: real, dailyProfit: real, daysActive: int, currentProfit: real,
    projectedFinalValue: real, progress: real)

  /** The "Investment Details" card: shown only when something is invested. */
  function Details(d: UserData, now: int): (r: Option<InvestmentDetail>)
    ensures r.Some? <==> d.invested > 0.0
    ensures r.Some? ==>
              && r.value.amount == d.invested
              && r.value.dailyProfit == Accrual(d.invested, 1)
              && r.value.daysActive == DaysActive(d.firstInvestmentDate, now)
              && r.value.currentProfit == d.profit
              && r.value.projectedFinalValue == d.invested + Accrual(d.invested, CycleDays)
              && r.value.progress == CycleProgress(r.value.daysActive)
              && r.value.progress <= 100.0
  {
    if d.invested > 0.0 then
      var days := DaysActive(d.firstInvestmentDate, now);
      Some(InvestmentDetail(d.invested, d.invested * 0.02, days, d.profit,
                            ProjectedFinalValue(d.invested), CycleProgress(days)))
    else None
  }

  // ---------------------------------------------------------------------------
  // The breakdown bars: each part as a percentage of the total balance.

  /**
   * The bar value as written, `part / totalBalance * 100`, with `None` for the
   * JavaScript results that are not finite numbers (`0 / 0` is NaN, `x / 0`
   * is an infinity).
   */
  function ShareAsWritten(part: real, total: real): (r: Option<real>)
    ensures r.None? <==> total == 0.0
    ensures r.Some? ==> r.value * total == part * 100.0
  {
    if total == 0.0 then None else Some(part / total * 100.0)
  }

  /** A new account has a zero balance, so every bar is handed NaN. */
  lemma NewAccountBarsAreNaN(id: string, username: string, email: string, agreed: bool, now: int)
    ensures var d := GetUserData(Some(NewAccount(id, username, email, agreed)), now);
            && ShareAsWritten(d.invested, TotalBalance(d)) == None
            && ShareAsWritten(d.profit, TotalBalance(d)) == None
            && ShareAsWritten(d.referralBonus, TotalBalance(d)) == None
  {
  }

  /** The bar value with an empty balance shown as an empty bar. */
  function Share(part: real, total: real): (p: real)
    ensures 0.0 <= part <= total ==> 0.0 <= p <= 100.0
    ensures total != 0.0 ==> ShareAsWritten(part, total) == Some(p)
    ensures total == 0.0 ==> p == 0.0
  {
    if total == 0.0 then 0.0 else part / total * 100.0
  }

  datatype Breakdown = Breakdown(invested: real, profit: real, referralBonus: real)

  /** The three bars of the "Current Balance" card. */
  function Bars(d: UserData): (b: Breakdown)
    ensures TotalBalance(d) != 0.0 ==>
              && Some(b.invested) == ShareAsWritten(d.invested, TotalBalance(d))
              && Some(b.profit) == ShareAsWritten(d.profit, TotalBalance(d))
              && Some(b.referralBonus) == ShareAsWritten(d.referralBonus, TotalBalance(d))
    ensures TotalBalance(d) == 0.0 ==> b.invested == b.profit == b.referralBonus == 0.0
  {
    var t := TotalBalance(d);
    Breakdown(Share(d.invested, t), Share(d.profit, t), Share(d.referralBonus, t))
  }

  /** With non-negative balances the bars are percentages, and they add up to 100 unless all are 0. */
  lemma BarsArePercentages(d: UserData)
    requires 0.0 <= d.invested && 0.0 <= d.profit && 0.0 <= d.referralBonus
    ensures var b := Bars(d);
            && 0.0 <= b.invested <= 100.0 && 0.0 <= b.profit <= 100.0 && 0.0 <= b.referralBonus <= 100.0
            && (TotalBalance(d) == 0.0 ==> b.invested == b.profit == b.referralBonus == 0.0)
            && (TotalBalance(d) != 0.0 ==> b.invested + b.profit + b.referralBonus == 100.0)
  {
    var t := TotalBalance(d);
    if t != 0.0 {
      var b := Bars(d);
      assert b.invested + b.profit + b.referralBonus
          == (d.invested + d.profit + d.referralBonus) / t * 100.0;
    }
  }
}
