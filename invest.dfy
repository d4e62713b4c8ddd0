/**
 * The invest form (app/dashboard/invest/page.tsx): the amount it selects, the
 * check it makes before calling `makeInvestment`, and the submit button's
 * state. `selectedAmount` is null (`None`), a preset, or the custom sentinel
 * -1; the custom text is parsed by `Number.parseInt`, here an input with
 * `None` standing for NaN.
 */
module InvestPage {
  import opened Wrappers
  import opened Auth
  import Investment

  const InvestmentOptions: seq<int> := [25, 50, 100, 250, 500, 1000]
  const MinInvestment: int := 25

  /** The radio value of "Custom amount". */
  const Custom: int := -1

  /** The presets are all at least the minimum, ascending, and the same as the library's offer. */
  lemma OptionsAboveMinimum()
    ensures forall k :: 0 <= k < |InvestmentOptions| ==> MinInvestment <= InvestmentOptions[k]
    ensures forall j, k :: 0 <= j < k < |InvestmentOptions| ==> InvestmentOptions[j] < InvestmentOptions[k]
    ensures |InvestmentOptions| == |Investment.InvestmentOptions()|
    ensures forall k :: 0 <= k < |InvestmentOptions| ==>
              InvestmentOptions[k] as real == Investment.InvestmentOptions()[k]
    ensures MinInvestment as real == Investment.MinInvestment
  {
  }

  /** The selections the radio group can produce. */
  predicate ReachableSelection(selected: Option<int>) {
    selected.None? || selected.value in InvestmentOptions || selected.value == Custom
  }

  /** `selectedAmount === -1 ? parseInt(customAmount) : selectedAmount`. */
  function EffectiveAmount(selected: Option<int>, parsedCustom: Option<int>): (a: Option<int>)
    ensures selected == Some(Custom) ==> a == parsedCustom
    ensures selected != Some(Custom) ==> a == selected
    ensures ReachableSelection(selected) && selected != Some(Custom) && a.Some? ==> MinInvestment <= a.value
  {
    if selected == Some(Custom) then parsedCustom else selected
  }

  /** `!amount || amount < minInvestment` rejects; otherwise the amount goes to the ledger. */
  function InvestGuard(amount: Option<int>): (v: Option<int>)
    ensures v.Some? <==> amount.Some? && MinInvestment <= amount.value
    ensures v.Some? ==> v == amount
  {
    // `!amount` holds for null, NaN and 0
    if amount.None? || amount.value == 0 || amount.value < MinInvestment then None else amount
  }

  /** The page forwards an amount exactly when the ledger's own minimum check accepts it. */
  lemma GuardAgreesWithLedger(u: UserRecord, x: int, now: int)
    ensures InvestGuard(Some(x)) == Some(x) <==> Investment.Invest(Some(u), x as real, now).Success?
    ensures InvestGuard(Some(x)).None? <==>
              Investment.Invest(Some(u), x as real, now) == Failure(Investment.BelowMinimum)
  {
  }

  /** The submit button's `disabled`; comparisons with NaN are false. */
  predicate SubmitDisabled(loading: bool, selected: Option<int>, customAmount: string,
                           parsedCustom: Option<int>): (disabled: bool)
    ensures loading ==> disabled
    ensures selected.None? ==> disabled
    ensures selected == Some(Custom) && customAmount == "" ==> disabled
    ensures !disabled && selected == Some(Custom) && parsedCustom.Some? ==> MinInvestment <= parsedCustom.value
  {
    || loading
    || ((selected.None? || selected.value == 0) && selected != Some(Custom))
    || (selected == Some(Custom) &&
          (customAmount == "" || (parsedCustom.Some? && parsedCustom.value < MinInvestment)))
  }

  /**
   * For selections the radio group produces and custom text that parses (or is
   * empty, which parses as NaN), the button is enabled exactly when the guard
   * forwards an amount.
   */
  lemma ButtonMatchesGuard(selected: Option<int>, customAmount: string, parsedCustom: Option<int>)
    requires ReachableSelection(selected)
    requires customAmount == "" <==> parsedCustom.None?
    ensures (!SubmitDisabled(false, selected, customAmount, parsedCustom)) <==>
              InvestGuard(EffectiveAmount(selected, parsedCustom)).Some?
  {
  }

  /**
   * Custom text that does not parse leaves the button enabled; the guard then rejects it.
   * The field is a number input, which reports "" for text that is not a number,
   * so typing alone most likely never reaches this case.
   */
  lemma UnparsableCustomEnablesButton(customAmount: string)
    requires customAmount != ""
    ensures !SubmitDisabled(false, Some(Custom), customAmount, None)
    ensures InvestGuard(EffectiveAmount(Some(Custom), None)) == None
  {
  }

  datatype InvestOutcome =
    | RejectedInvalid              // "Invalid amount" toast
    | Invested(amount: int)        // "Investment successful!" toast
    | Failed(error: Investment.LedgerError)  // "Investment failed" toast with the ledger's message

  /** The page's own state: the radio selection, the custom text, the loading flag. */
  class InvestForm {
    var selectedAmount: Option<int>
    var customAmount: string
    var loading: bool

    constructor ()
      ensures selectedAmount == None && customAmount == "" && !loading
    {
      selectedAmount, customAmount, loading := None, "", false;
    }

    /** `handleInvest`, where `parsedCustom` is `Number.parseInt(customAmount)`. */
    method HandleInvest(session: Session, parsedCustom: Option<int>, now: int) returns (outcome: InvestOutcome)
      requires session.Valid()
      modifies this`loading, session, session.current
      ensures session.Valid()
      ensures match InvestGuard(EffectiveAmount(selectedAmount, parsedCustom))
        case None =>
          && outcome == RejectedInvalid && loading == old(loading)
          && session.current == old(session.current) && session.stored == old(session.stored)
          && session.Observed() == old(session.Observed())
        case Some(a) =>
          && !loading
          && match Investment.Invest(old(session.Observed()), a as real, now)
             case Success(account) =>
               outcome == Invested(a) && session.Observed() == Some(account)
             case Failure(e) =>
               && outcome == Failed(e)
               && session.stored == old(session.stored) && session.Observed() == old(session.Observed())
    {
      var amount := if selectedAmount == Some(Custom) then parsedCustom else selectedAmount;
      if amount.None? || amount.value == 0 || amount.value < MinInvestment {
        return RejectedInvalid;
      }
      loading := true;
      var r := Investment.MakeInvestment(session, amount.value as real, now);
      if r.Pass? {
        outcome := Invested(amount.value);
      } else {
        outcome := Failed(r.error);
      }
      loading := false;
    }
  }
}
