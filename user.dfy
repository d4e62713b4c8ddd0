/**
 * The account snapshot of lib/user.ts: the session's record enriched with
 * derived referral figures and the fixed mock investment history.
 */
module Users {
  import opened Wrappers
  import opened Auth

  datatype Investment = Investment(amount: real, date: int)

  datatype UserData = UserData(
    id: string,
    username: string,
    email: string,
    agreed: bool,
    invested: real,
    profit: real,
    referralCount: int,
    activeReferrals: int,
    referredInvestment: real,
    referralBonus: real,
    firstInvestmentDate: Option<int>,
    recentInvestments: seq<Investment>,
    allInvestments: seq<Investment>)

  /** The base record inside a snapshot. */
  function Base(d: UserData): UserRecord {
    UserRecord(d.id, d.username, d.email, d.agreed, d.invested, d.profit,
               d.referralCount, d.referralBonus, d.firstInvestmentDate)
  }

  /** The mock history, dated relative to the time `now` the caller passes in. */
  function MockInvestments(now: int): (h: seq<Investment>)
    ensures |h| == 4
    ensures h[0].amount == 100.0 && h[1].amount == 200.0 && h[2].amount == 150.0 && h[3].amount == 50.0
    ensures forall j, k :: 0 <= j < k < |h| ==> h[j].date < h[k].date < now
  {
    [ Investment(100.0, now - 20 * MsPerDay),
      Investment(200.0, now - 15 * MsPerDay),
      Investment(150.0, now - 10 * MsPerDay),
      Investment(50.0, now - 5 * MsPerDay) ]
  }

  /** Four in five referrals count as active: `Math.floor(referralCount * 0.8)`. */
  function ActiveReferrals(referralCount: int): (a: int)
    ensures a as real <= referralCount as real * 0.8 < a as real + 1.0
    ensures 0 <= referralCount ==> 0 <= a <= referralCount
  {
    (referralCount as real * 0.8).Floor
  }

  /** The bonus is 10% of what the referred users invested, so that sum is ten times the bonus. */
  function ReferredInvestment(referralBonus: real): (i: real)
    ensures i * 0.1 == referralBonus
  {
    referralBonus * 10.0
  }

  /** The record returned when nobody is logged in. */
  function DemoData(now: int): (d: UserData)
    ensures Base(d) == LoginAccount(DemoEmail, DemoPassword, now).value
    ensures d.referredInvestment == ReferredInvestment(d.referralBonus)
  {
    UserData("demo123", "demo", "demo@example.com", true, 500.0, 60.0, 2, 2, 250.0, 25.0,
             Some(now - 10 * MsPerDay), MockInvestments(now)[..3], MockInvestments(now))
  }

  /** `getUserData`, given what `getCurrentUser` reports. */
  function GetUserData(user: Option<UserRecord>, now: int): (d: UserData)
    ensures user.Some? ==> Base(d) == user.value
    ensures user.Some? ==> d.activeReferrals == ActiveReferrals(user.value.referralCount)
    ensures user.Some? ==> d.referredInvestment * 0.1 == user.value.referralBonus
    ensures user.None? ==> d == DemoData(now)
    ensures d.allInvestments == MockInvestments(now)
    ensures |d.recentInvestments| == 3 && d.recentInvestments == d.allInvestments[..3]
  {
    match user
    case Some(u) =>
      UserData(u.id, u.username, u.email, u.agreed, u.invested, u.profit, u.referralCount,
               ActiveReferrals(u.referralCount), ReferredInvestment(u.referralBonus), u.referralBonus,
               u.firstInvestmentDate, MockInvestments(now)[..3], MockInvestments(now))
    case None => DemoData(now)
  }

  /**
   * The demo record keeps the 10% rule (250 referred for a bonus of 25) but
   * not the 80% rule: it lists 2 active referrals where the formula gives 1.
   */
  lemma DemoDataFigures(now: int)
    ensures DemoData(now).referredInvestment == ReferredInvestment(DemoData(now).referralBonus)
    ensures DemoData(now).activeReferrals == 2 && ActiveReferrals(DemoData(now).referralCount) == 1
  {
  }

  /** A `Partial<UserData>`: every field may be absent. */
  datatype UserDataPatch = UserDataPatch(
    id: Option<string>,
    username: Option<string>,
    email: Option<string>,
    agreed: Option<bool>,
    invested: Option<real>,
    profit: Option<real>,
    referralCount: Option<int>,
    activeReferrals: Option<int>,
    referredInvestment: Option<real>,
    referralBonus: Option<real>,
    firstInvestmentDate: Option<Option<int>>,
    recentInvestments: Option<seq<Investment>>,
    allInvestments: Option<seq<Investment>>)

  const NoChanges: UserDataPatch :=
    UserDataPatch(None, None, None, None, None, None, None, None, None, None, None, None, None)

  /** `{ ...d, ...p }`: every field present in `p` wins. */
  function Merge(d: UserData, p: UserDataPatch): (r: UserData)
    ensures Overrides(r, d, p)
  {
    UserData(p.id.GetOr(d.id), p.username.GetOr(d.username), p.email.GetOr(d.email),
             p.agreed.GetOr(d.agreed), p.invested.GetOr(d.invested), p.profit.GetOr(d.profit),
             p.referralCount.GetOr(d.referralCount), p.activeReferrals.GetOr(d.activeReferrals),
             p.referredInvestment.GetOr(d.referredInvestment), p.referralBonus.GetOr(d.referralBonus),
             p.firstInvestmentDate.GetOr(d.firstInvestmentDate),
             p.recentInvestments.GetOr(d.recentInvestments), p.allInvestments.GetOr(d.allInvestments))
  }

  /** `r` takes each field from `p` where `p` has it and from `d` where it does not. */
  ghost predicate Overrides(r: UserData, d: UserData, p: UserDataPatch) {
    && (if p.id.Some? then r.id == p.id.value else r.id == d.id)
    && (if p.username.Some? then r.username == p.username.value else r.username == d.username)
    && (if p.email.Some? then r.email == p.email.value else r.email == d.email)
    && (if p.agreed.Some? then r.agreed == p.agreed.value else r.agreed == d.agreed)
    && (if p.invested.Some? then r.invested == p.invested.value else r.invested == d.invested)
    && (if p.profit.Some? then r.profit == p.profit.value else r.profit == d.profit)
    && (if p.referralCount.Some? then r.referralCount == p.referralCount.value
        else r.referralCount == d.referralCount)
    && (if p.activeReferrals.Some? then r.activeReferrals == p.activeReferrals.value
        else r.activeReferrals == d.activeReferrals)
    && (if p.referredInvestment.Some? then r.referredInvestment == p.referredInvestment.value
        else r.referredInvestment == d.referredInvestment)
    && (if p.referralBonus.Some? then r.referralBonus == p.referralBonus.value
        else r.referralBonus == d.referralBonus)
    && (if p.firstInvestmentDate.Some? then r.firstInvestmentDate == p.firstInvestmentDate.value
        else r.firstInvestmentDate == d.firstInvestmentDate)
    && (if p.recentInvestments.Some? then r.recentInvestments == p.recentInvestments.value
        else r.recentInvestments == d.recentInvestments)
    && (if p.allInvestments.Some? then r.allInvestments == p.allInvestments.value
        else r.allInvestments == d.allInvestments)
  }

  /** `updateUserProfile(p)`: the merged snapshot; the session is not touched. */
  function UpdateUserProfile(user: Option<UserRecord>, now: int, p: UserDataPatch): (r: UserData)
    ensures Overrides(r, GetUserData(user, now), p)
    ensures p == NoChanges ==> r == GetUserData(user, now)
  {
    Merge(GetUserData(user, now), p)
  }

  /** Applying the same patch twice is the same as applying it once. */
  lemma MergeIdempotent(d: UserData, p: UserDataPatch)
    ensures Merge(Merge(d, p), p) == Merge(d, p)
  {
  }
}
