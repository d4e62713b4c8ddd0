/** The figures computed on the statistics page (app/dashboard/stats/page.tsx). */
module StatsPage {
  import opened Wrappers
  import opened Auth
  import opened Users
  import opened Dashboard

  /** `daysActive || 7` as the length given to `Array.from`, which turns a negative length into 0. */
  function ChartLength(daysActive: int): (n: nat)
    ensures daysActive == 0 ==> n == 7
    ensures 0 < daysActive ==> n == daysActive
    ensures daysActive < 0 ==> n == 0
  {
    var requested := if daysActive != 0 then daysActive else 7;
    if requested < 0 then 0 else requested
  }

  /** Entry `i` is day `i + 1` of the chart. */
  function ProfitPoint(invested: real, i: nat): real {
    if invested > 0.0 then invested * 0.02 * (i + 1) as real else (i + 1) as real
  }

  /** `profitData`: the accrued profit after each day, or 1, 2, 3, ... with nothing invested. */
  function ProfitData(invested: real, daysActive: int): (s: seq<real>)
    ensures |s| == ChartLength(daysActive)
    ensures forall i :: 0 <= i < |s| ==>
              s[i] == (if invested > 0.0 then Accrual(invested, i + 1) else (i + 1) as real)
  {
    seq(ChartLength(daysActive), (i: nat) => ProfitPoint(invested, i))
  }

  /** The daily increment of the profit series. */
  function ProfitStep(invested: real): (step: real)
    ensures 0.0 < step
  {
    if invested > 0.0 then invested * 0.02 else 1.0
  }

  lemma ProfitPointScaled(invested: real, i: nat)
    ensures ProfitPoint(invested, i) == (i + 1) as real * ProfitStep(invested)
  {
  }

  lemma ScaleIncreasing(x: real, y: real, step: real)
    requires x < y && 0.0 < step
    ensures x * step < y * step
  {
  }

  lemma ProfitPointIncreasing(invested: real, i: nat, j: nat)
    requires i < j
    ensures ProfitPoint(invested, i) < ProfitPoint(invested, j)
  {
    ProfitPointScaled(invested, i);
    ProfitPointScaled(invested, j);
    ScaleIncreasing((i + 1) as real, (j + 1) as real, ProfitStep(invested));
  }

  /** The profit series is linear in the day and strictly increasing. */
  lemma ProfitDataLinearIncreasing(invested: real, daysActive: int)
    ensures var s := ProfitData(invested, daysActive);
            forall i :: 0 <= i < |s| ==> s[i] == (i + 1) as real * s[0]
    ensures var s := ProfitData(invested, daysActive);
            forall i, j :: 0 <= i < j < |s| ==> s[i] < s[j]
  {
    var s := ProfitData(invested, daysActive);
    var step := ProfitStep(invested);
    forall i | 0 <= i < |s|
      ensures s[i] == (i + 1) as real * step
    {
      assert s[i] == ProfitPoint(invested, i);
      ProfitPointScaled(invested, i);
    }
    forall i, j | 0 <= i < j < |s|
      ensures s[i] < s[j]
    {
      assert s[i] == ProfitPoint(invested, i) && s[j] == ProfitPoint(invested, j);
      ProfitPointIncreasing(invested, i, j);
    }
  }

  /** `investmentData`: the first at most five recent investments, in order, amounts kept. */
  function InvestmentData(recent: seq<Users.Investment>): (r: seq<Users.Investment>)
    ensures |r| == Min(5, |recent|)
    ensures forall k :: 0 <= k < |r| ==> r[k] == recent[k]
  {
    recent[..Min(5, |recent|)]
  }

  /** With the snapshot from `getUserData`, the chart shows the three mock entries 100, 200, 150. */
  lemma InvestmentChartOfSnapshot(user: Option<UserRecord>, now: int)
    ensures var r := InvestmentData(GetUserData(user, now).recentInvestments);
            |r| == 3 && r[0].amount == 100.0 && r[1].amount == 200.0 && r[2].amount == 150.0
  {
    var h := MockInvestments(now);
    assert GetUserData(user, now).recentInvestments == h[..3];
  }

  /** "days remaining in cycle". */
  function DaysRemaining(daysActive: int): (r: int)
    ensures daysActive <= CycleDays ==> 0 <= r
    ensures 0 <= daysActive ==> r <= CycleDays
  {
    CycleDays - daysActive
  }

  /** The days remaining are never negative, and at most a full cycle once investing has begun. */
  lemma DaysRemainingBounds(firstInvestmentDate: Option<int>, now: int)
    ensures 0 <= DaysRemaining(DaysActive(firstInvestmentDate, now))
    ensures (firstInvestmentDate.None? || firstInvestmentDate.value <= now) ==>
              DaysRemaining(DaysActive(firstInvestmentDate, now)) <= CycleDays
  {
  }

  /** Return on investment in percent; 0 when nothing is invested, so never a division by zero. */
  function Roi(profit: real, invested: real): (r: real)
    ensures invested > 0.0 ==> r * invested == profit * 100.0
    ensures invested <= 0.0 ==> r == 0.0
    ensures 0.0 <= profit ==> 0.0 <= r
  {
    if invested > 0.0 then profit / invested * 100.0 else 0.0
  }
}
