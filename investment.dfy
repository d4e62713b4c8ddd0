/**
 * The ledger operations of lib/investment.ts. Each operation asks the session
 * for its user, runs its guards in a fixed order, mutates that very object
 * and rewrites the storage entry. `Invest` and `Withdraw` are the same
 * operations on values; the methods are proved against them.
 */
module Investment {
  import opened Wrappers
  import opened Auth

  const MinInvestment: real := 25.0

  datatype LedgerError =
    | NotLoggedInToInvest
    | BelowMinimum
    | NotLoggedInToWithdraw
    | NonPositiveWithdrawal
    | InsufficientProfit

  /** The message text each error is thrown with; the model reports the error value itself. */
  function LedgerMessage(e: LedgerError): string {
    match e
    case NotLoggedInToInvest => "You must be logged in to make an investment"
    case BelowMinimum => "Minimum investment amount is 25 Stars"
    case NotLoggedInToWithdraw => "You must be logged in to withdraw profit"
    case NonPositiveWithdrawal => "Withdrawal amount must be greater than 0"
    case InsufficientProfit => "Insufficient profit balance"
  }

  /** `getInvestmentOptions`: the fixed amounts offered. */
  function InvestmentOptions(): (opts: seq<real>)
    ensures |opts| == 6
    ensures forall k :: 0 <= k < |opts| ==> MinInvestment <= opts[k]
    ensures forall j, k :: 0 <= j < k < |opts| ==> opts[j] < opts[k]
    ensures opts[0] == MinInvestment
  {
    [25.0, 50.0, 100.0, 250.0, 500.0, 1000.0]
  }

  /**
   * `getDailyProfitRate`: the daily rate, in percent. Applied without
   * compounding it gives the stats page's 60% a month and 730% a year.
   */
  function DailyProfitRate(): (r: real)
    ensures 30.0 * r == 60.0 && 365.0 * r == 730.0
  {
    2.0
  }

  /** The account after an investment leaves everything but `invested` and the first date alone. */
  ghost predicate InvestedOnly(before: UserRecord, after: UserRecord) {
    after == before.(invested := after.invested, firstInvestmentDate := after.firstInvestmentDate)
  }

  /** The account after a withdrawal leaves everything but `profit` alone. */
  ghost predicate ProfitOnly(before: UserRecord, after: UserRecord) {
    after == before.(profit := after.profit)
  }

  /** `makeInvestment(amount)` at time `now`, on the account the session reports. */
  function Invest(user: Option<UserRecord>, amount: real, now: int): (r: Result<UserRecord, LedgerError>)
    ensures user.None? ==> r == Failure(NotLoggedInToInvest)
    ensures user.Some? && amount < MinInvestment ==> r == Failure(BelowMinimum)
    ensures r.Success? <==> user.Some? && MinInvestment <= amount
    ensures r.Success? ==>
              && InvestedOnly(user.value, r.value)
              && r.value.invested == user.value.invested + amount
              && r.value.firstInvestmentDate ==
                   (if user.value.firstInvestmentDate.Some? then user.value.firstInvestmentDate else Some(now))
  {
    if user.None? then Failure(NotLoggedInToInvest)
    else if amount < MinInvestment then Failure(BelowMinimum)
    else
      var u := user.value;
      var first := if u.firstInvestmentDate.None? then Some(now) else u.firstInvestmentDate;
      Success(u.(invested := u.invested + amount, firstInvestmentDate := first))
  }

  /** `withdrawProfit(amount)`, on the account the session reports. Only profit is available. */
  function Withdraw(user: Option<UserRecord>, amount: real): (r: Result<UserRecord, LedgerError>)
    ensures user.None? ==> r == Failure(NotLoggedInToWithdraw)
    ensures user.Some? && amount <= 0.0 ==> r == Failure(NonPositiveWithdrawal)
    ensures user.Some? && 0.0 < amount && user.value.profit < amount ==> r == Failure(InsufficientProfit)
    ensures r.Success? <==> user.Some? && 0.0 < amount <= user.value.profit
    ensures r.Success? ==>
              && ProfitOnly(user.value, r.value)
              && r.value.profit == user.value.profit - amount
              && 0.0 <= r.value.profit < user.value.profit
  {
    if user.None? then Failure(NotLoggedInToWithdraw)
    else if amount <= 0.0 then Failure(NonPositiveWithdrawal)
    else if amount > user.value.profit then Failure(InsufficientProfit)
    else Success(user.value.(profit := user.value.profit - amount))
  }

  /** Withdrawing the whole profit empties it; the referral bonus plays no part. */
  lemma WithdrawAllProfit(u: UserRecord)
    requires 0.0 < u.profit
    ensures Withdraw(Some(u), u.profit).Success?
    ensures Withdraw(Some(u), u.profit).value.profit == 0.0
    ensures 0.0 < u.referralBonus ==>
              Withdraw(Some(u), u.profit + u.referralBonus) == Failure(InsufficientProfit)
  {
  }

  /** `makeInvestment`: mutates the session's own user object in place. */
  method MakeInvestment(session: Session, amount: real, now: int) returns (r: Outcome<LedgerError>)
    requires session.Valid()
    modifies session, session.current
    ensures session.Valid()
    ensures match Invest(old(session.Observed()), amount, now)
      case Success(account) =>
        && r == Pass && session.current != null
        && session.Observed() == Some(account)
        && (session.inBrowser ==> session.stored == Some(account))
      case Failure(e) =>
        && r == Fail(e)
        && session.stored == old(session.stored) && session.Observed() == old(session.Observed())
    ensures old(session.current) != null ==> session.current == old(session.current)
    ensures old(session.current) == null && old(session.Observed()).Some? ==> session.current != null
  {
    var user := session.GetCurrentUser();
    if user == null {
      return Fail(NotLoggedInToInvest);
    }
    if amount < MinInvestment {
      return Fail(BelowMinimum);
    }
    user.invested := user.invested + amount;
    if user.firstInvestmentDate.None? {
      user.firstInvestmentDate := Some(now);
    }
    if session.inBrowser {
      session.stored := Some(user.Snapshot());
    }
    return Pass;
  }

  /** `withdrawProfit`: mutates the session's own user object in place. */
  method WithdrawProfit(session: Session, amount: real) returns (r: Outcome<LedgerError>)
    requires session.Valid()
    modifies session, session.current
    ensures session.Valid()
    ensures match Withdraw(old(session.Observed()), amount)
      case Success(account) =>
        && r == Pass && session.current != null
        && session.Observed() == Some(account)
        && (session.inBrowser ==> session.stored == Some(account))
      case Failure(e) =>
        && r == Fail(e)
        && session.stored == old(session.stored) && session.Observed() == old(session.Observed())
    ensures old(session.current) != null ==> session.current == old(session.current)
    ensures old(session.current) == null && old(session.Observed()).Some? ==> session.current != null
  {
    var user := session.GetCurrentUser();
    if user == null {
      return Fail(NotLoggedInToWithdraw);
    }
    if amount <= 0.0 {
      return Fail(NonPositiveWithdrawal);
    }
    if amount > user.profit {
      return Fail(InsufficientProfit);
    }
    user.profit := user.profit - amount;
    if session.inBrowser {
      session.stored := Some(user.Snapshot());
    }
    return Pass;
  }

  /**
   * A page that fetched the user object before an investment sees the new
   * figures through that same reference, and so does a later lookup.
   */
  method InvestThroughHeldReference(session: Session, amount: real, now: int)
    returns (held: User?, later: User?)
    requires session.Valid()
    modifies session, session.current
    ensures held != null ==>
              && old(session.Observed()).Some?
              && (MinInvestment <= amount ==>
                    later == held && held.invested == old(session.Observed()).value.invested + amount)
  {
    held := session.GetCurrentUser();
    var _ := MakeInvestment(session, amount, now);
    later := session.GetCurrentUser();
  }

  // ---------------------------------------------------------------------------
  // Any sequence of ledger calls on a logged-in account.

  datatype LedgerCall = InvestCall(amount: real, at: int) | WithdrawCall(amount: real)

  /** One call; a rejected call leaves the account as it was. */
  function Step(u: UserRecord, c: LedgerCall): UserRecord {
    var r := match c
      case InvestCall(amount, at) => Invest(Some(u), amount, at)
      case WithdrawCall(amount) => Withdraw(Some(u), amount);
    if r.Success? then r.value else u
  }

  /** The calls one after another. */
  function Replay(u: UserRecord, calls: seq<LedgerCall>): UserRecord
    decreases |calls|
  {
    if calls == [] then u else Replay(Step(u, calls[0]), calls[1..])
  }

  /** The total of the investments the ledger accepts (their acceptance depends on the amount only). */
  function AcceptedInvestments(calls: seq<LedgerCall>): real
    decreases |calls|
  {
    if calls == [] then 0.0
    else
      var c := calls[0];
      (if c.InvestCall? && MinInvestment <= c.amount then c.amount else 0.0)
        + AcceptedInvestments(calls[1..])
  }

  /** The time of the first accepted investment, if any. */
  function FirstAcceptedInvestment(calls: seq<LedgerCall>): Option<int>
    decreases |calls|
  {
    if calls == [] then None
    else if calls[0].InvestCall? && MinInvestment <= calls[0].amount then Some(calls[0].at)
    else FirstAcceptedInvestment(calls[1..])
  }

  /**
   * Over any sequence of calls: `invested` grows by exactly the accepted
   * investments, the referral figures and identity never change, and profit
   * never goes below zero nor above where it started.
   */
  lemma {:induction false} ReplayBalances(u: UserRecord, calls: seq<LedgerCall>)
    requires 0.0 <= u.profit
    ensures var v := Replay(u, calls);
            && v.invested == u.invested + AcceptedInvestments(calls)
            && 0.0 <= v.profit <= u.profit
            && v == u.(invested := v.invested, profit := v.profit, firstInvestmentDate := v.firstInvestmentDate)
    decreases |calls|
  {
    if calls != [] {
      ReplayBalances(Step(u, calls[0]), calls[1..]);
    }
  }

  /**
   * The first investment date is stamped once: kept when it is already set,
   * otherwise it becomes the time of the first accepted investment.
   */
  lemma {:induction false} ReplayFirstInvestmentDate(u: UserRecord, calls: seq<LedgerCall>)
    ensures Replay(u, calls).firstInvestmentDate ==
              if u.firstInvestmentDate.Some? then u.firstInvestmentDate
              else FirstAcceptedInvestment(calls)
    decreases |calls|
  {
    if calls != [] {
      ReplayFirstInvestmentDate(Step(u, calls[0]), calls[1..]);
    }
  }
}
