/**
 * The withdraw form (app/dashboard/withdraw/page.tsx): the amount it lets
 * through, the submit button's state, and the submit handler in front of
 * `withdrawProfit`. The typed text is parsed by `Number.parseFloat`; here the
 * parse is an input, `None` standing for NaN.
 */
module WithdrawPage {
  import opened Wrappers
  import opened Auth
  import opened Investment

  /** The figures the page falls back on when nobody is logged in. */
  const FallbackProfit: real := 60.0
  const FallbackReferralBonus: real := 25.0

  /** `totalAvailable`: profit plus referral bonus of the session user, else of the fallback. */
  function TotalAvailable(user: Option<UserRecord>): (t: real)
    ensures user.Some? ==> t == user.value.profit + user.value.referralBonus
    ensures user.None? ==> t == 85.0
  {
    match user
    case Some(u) => u.profit + u.referralBonus
    case None => FallbackProfit + FallbackReferralBonus
  }

  datatype PageVerdict = InvalidAmount | InsufficientFunds | Forward(amount: real)

  /** The two early-return checks of `handleWithdraw`. */
  function WithdrawGuard(parsed: Option<real>, totalAvailable: real): (v: PageVerdict)
    ensures v == InvalidAmount <==> parsed.None? || parsed.value <= 0.0
    ensures v == InsufficientFunds <==> parsed.Some? && 0.0 < parsed.value && totalAvailable < parsed.value
    ensures v.Forward? <==> parsed.Some? && 0.0 < parsed.value <= totalAvailable
    ensures v.Forward? ==> v.amount == parsed.value
  {
    // `!withdrawAmount` holds for NaN and for 0
    if parsed.None? || parsed.value == 0.0 || parsed.value <= 0.0 then InvalidAmount
    else if parsed.value > totalAvailable then InsufficientFunds
    else Forward(parsed.value)
  }

  /** The submit button's `disabled`; comparisons with NaN are false. */
  predicate SubmitDisabled(loading: bool, amount: string, parsed: Option<real>, totalAvailable: real): (disabled: bool)
    ensures loading ==> disabled
    ensures amount == "" ==> disabled
    ensures !disabled && parsed.Some? ==> 0.0 < parsed.value <= totalAvailable
  {
    || loading
    || amount == ""
    || (parsed.Some? && parsed.value <= 0.0)
    || (parsed.Some? && parsed.value > totalAvailable)
  }

  /** For text that parses to a number, the button is enabled exactly when the guard forwards it. */
  lemma ButtonMatchesGuard(amount: string, v: real, totalAvailable: real)
    requires amount != ""
    ensures (!SubmitDisabled(false, amount, Some(v), totalAvailable)) <==>
              WithdrawGuard(Some(v), totalAvailable).Forward?
  {
  }

  /**
   * Text that does not parse leaves the button enabled; the guard then rejects it.
   * The field is a number input, which reports "" for text that is not a number,
   * so typing alone most likely never reaches this case.
   */
  lemma UnparsableTextEnablesButton(amount: string, totalAvailable: real)
    requires amount != ""
    ensures !SubmitDisabled(false, amount, None, totalAvailable)
    ensures WithdrawGuard(None, totalAvailable) == InvalidAmount
  {
  }

  /** "Max" fills in the total available, which the guard forwards whenever it is positive. */
  lemma MaxPassesGuard(totalAvailable: real)
    ensures WithdrawGuard(Some(totalAvailable), totalAvailable).Forward? <==> 0.0 < totalAvailable
  {
  }

  /**
   * The page counts the referral bonus as available, the ledger does not: an
   * amount above the profit but within profit plus bonus passes the page and
   * is refused by `withdrawProfit` for insufficient profit.
   */
  lemma PageAdmitsWhatLedgerRefuses(u: UserRecord, a: real)
    requires u.profit < a <= u.profit + u.referralBonus
    requires 0.0 < a
    ensures WithdrawGuard(Some(a), TotalAvailable(Some(u))) == Forward(a)
    ensures Withdraw(Some(u), a) == Failure(InsufficientProfit)
  {
  }

  /** Every account with a positive bonus has such an amount: pressing "Max". */
  lemma MaxFailsWithBonus(u: UserRecord)
    requires 0.0 <= u.profit && 0.0 < u.referralBonus
    ensures var t := TotalAvailable(Some(u));
            WithdrawGuard(Some(t), t) == Forward(t) && Withdraw(Some(u), t) == Failure(InsufficientProfit)
  {
  }

  /** Of the amounts the page forwards for a logged-in user, the ledger takes exactly those within profit. */
  lemma ForwardedAmountsLedgerVerdict(u: UserRecord, parsed: Option<real>)
    requires WithdrawGuard(parsed, TotalAvailable(Some(u))).Forward?
    ensures Withdraw(Some(u), parsed.value).Success? <==> parsed.value <= u.profit
  {
  }

  /** With nobody logged in the page still offers 85; every forwarded amount fails for lack of a session. */
  lemma NoSessionForwardedFails(parsed: Option<real>)
    requires WithdrawGuard(parsed, TotalAvailable(None)).Forward?
    ensures parsed.value <= 85.0
    ensures Withdraw(None, parsed.value) == Failure(NotLoggedInToWithdraw)
  {
  }

  datatype WithdrawOutcome =
    | RejectedInvalid       // "Invalid amount" toast
    | RejectedInsufficient  // "Insufficient funds" toast
    | Submitted             // "Withdrawal request submitted" toast
    | Failed(error: LedgerError)  // "Withdrawal failed" toast with the ledger's message

  /** The page's own state: the typed amount, the loading flag, the success flag. */
  class WithdrawForm {
    var amount: string
    var loading: bool
    var success: bool

    constructor ()
      ensures amount == "" && !loading && !success
    {
      amount, loading, success := "", false, false;
    }

    /**
     * `handleWithdraw`, where `parsed` is `Number.parseFloat(amount)` and
     * `totalAvailable` the figure computed when the page was rendered.
     */
    method HandleWithdraw(session: Session, parsed: Option<real>, totalAvailable: real)
      returns (outcome: WithdrawOutcome)
      requires session.Valid()
      modifies this, session, session.current
      ensures session.Valid()
      ensures loading == (if WithdrawGuard(parsed, totalAvailable).Forward? then false else old(loading))
      ensures match WithdrawGuard(parsed, totalAvailable)
        case InvalidAmount =>
          && outcome == RejectedInvalid
          && amount == old(amount) && success == old(success)
          && session.current == old(session.current) && session.stored == old(session.stored)
          && session.Observed() == old(session.Observed())
        case InsufficientFunds =>
          && outcome == RejectedInsufficient
          && amount == old(amount) && success == old(success)
          && session.current == old(session.current) && session.stored == old(session.stored)
          && session.Observed() == old(session.Observed())
        case Forward(a) =>
          match Withdraw(old(session.Observed()), a)
          case Success(account) =>
            && outcome == Submitted && success && amount == ""
            && session.Observed() == Some(account)
          case Failure(e) =>
            && outcome == Failed(e)
            && amount == old(amount) && success == old(success)
            && session.stored == old(session.stored) && session.Observed() == old(session.Observed())
    {
      if parsed.None? || parsed.value == 0.0 || parsed.value <= 0.0 {
        return RejectedInvalid;
      }
      if parsed.value > totalAvailable {
        return RejectedInsufficient;
      }
      loading := true;
      var r := WithdrawProfit(session, parsed.value);
      if r.Pass? {
        success := true;
        amount := "";
        outcome := Submitted;
      } else {
        outcome := Failed(r.error);
      }
      loading := false;
    }
  }
}
