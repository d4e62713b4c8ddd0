# Investment Stars ledger — a Dafny model

This project models the client-side core of the Investment Stars dashboard:

- the mock session store (`lib/auth.ts`): an in-memory `currentUser` slot and one
  browser-storage entry;
- the two ledger operations (`lib/investment.ts`): `makeInvestment` and `withdrawProfit`;
- the account snapshot (`lib/user.ts`): `getUserData` and `updateUserProfile`;
- the figures and form guards of the stats, balance, withdraw and invest pages.

`Auth.Session` is a class with the two slots. `current` holds a `User` object, the very
object that `getCurrentUser` hands out and that the ledger operations mutate in place.
`stored` holds a `UserRecord` value, the serialized copy. The invariant `Session.Valid()`
states that the stored copy always mirrors the cached object, and that there is no
storage outside a browser. `Session.Observed()` is the account `getCurrentUser` would
report.

The ledger methods are proved against the value-level functions `Investment.Invest` and
`Investment.Withdraw`. The page handlers (`WithdrawForm.HandleWithdraw`,
`InvestForm.HandleInvest`) are proved against their page guards composed with those
functions. Lemmas relate each page guard to the library check behind it:

- The invest page forwards exactly the amounts `makeInvestment` accepts.
- The withdraw page does not. It counts the referral bonus as available, but the ledger
  refuses any amount above the profit. So any amount in (profit, profit + bonus] passes
  the page and then fails with "Insufficient profit balance".

Amounts are exact `real`s. Time is an integer count of milliseconds, passed in as `now`.
Parsing the typed text is an input: `Option` of a number, with `None` for NaN. The
random account id is also an input parameter.

The model follows the code where other descriptions of the system differ:

- `withdrawProfit` only lowers `profit`. No withdrawal request is recorded or queued,
  and the bonus is never debited.
- `makeInvestment` appends no investment record. The history is the fixed mock list.
- Growth is linear (principal × 0.02 × days), though the invest page advertises
  "Compound Growth".
- The profit chart's length is `daysActive || 7`, and `Array.from` turns a negative
  length into 0. For a first-investment date in the future, the chart is empty rather
  than 7 long.
- The fallback record of `getUserData` lists 2 active referrals for 2 referrals. The
  80% rule would give 1 (`Users.DemoDataFigures`).

## Model

| member | source | states |
|---|---|---|
| `Auth.Registration` | lib/auth.ts:31-47 | registration fails with "Email already in use" exactly for test@example.com; otherwise the account has invested, profit, referral count and bonus 0, no first-investment date, and id, username, email and agreement as passed |
| `Auth.ReferrerIgnored` | lib/auth.ts:21-57 | the referrer id has no effect on the result of a registration |
| `Auth.LoginAccount` | lib/auth.ts:64-110 | login succeeds exactly for admin@example.com/"password" and demo@example.com/"demo", with the typed email and a first-investment date in the past; every other pair fails with "Invalid email or password" |
| `Auth.LoginBalances` | lib/auth.ts:66-99 | the admin account has 1000/120/5/50 and started 15 days ago; the demo account has 500/60/2/25 and started 10 days ago |
| `Auth.Session.constructor` | lib/auth.ts:19 | a page load starts with nothing cached and the storage as an earlier visit left it (none outside a browser) |
| `Auth.Session.GetCurrentUser` | lib/auth.ts:124-138 | returns the cached object if there is one; otherwise caches and returns a new object parsed from storage; otherwise null; the reported account and the storage never change |
| `Auth.Session.RegisterUser` | lib/auth.ts:21-58 | on success a new object holding the new account is cached and stored; on failure neither slot changes |
| `Auth.Session.LoginUser` | lib/auth.ts:60-111 | on success a new object holding the fixed account is cached and stored; on failure neither slot changes |
| `Auth.Session.LogoutUser` | lib/auth.ts:113-122 | both slots are empty afterwards and nobody is reported |
| `Auth.LogoutThenGetCurrentUser` | lib/auth.ts:113-138 | after a logout, `getCurrentUser` returns null, both at once and on a fresh page load |
| `Auth.GetCurrentUserTwice` | lib/auth.ts:124-134 | two calls in a row return the same object, and storage and the reported account are unchanged |
| `Investment.InvestmentOptions` | lib/investment.ts:64-68 | six options, all at least the minimum of 25, strictly ascending, starting at the minimum |
| `Investment.DailyProfitRate` | lib/investment.ts:70-74 | the daily rate is 2 percent: without compounding that is 60 percent over a 30-day month and 730 percent over a year, the figures the stats page shows |
| `Investment.Invest` | lib/investment.ts:5-33 | with no session it fails "must be logged in" before any amount check; it rejects amounts below 25 and accepts 25; on success `invested` rises by exactly the amount, the first date is set to now only if unset, and nothing else changes |
| `Investment.Withdraw` | lib/investment.ts:35-62 | with no session it fails first; amounts ≤ 0 are rejected, then amounts above the profit (the bonus is not counted); success exactly for 0 < amount ≤ profit, lowering only the profit by exactly the amount and leaving it ≥ 0 |
| `Investment.WithdrawAllProfit` | lib/investment.ts:45-54 | withdrawing exactly the profit succeeds and leaves 0; profit plus a positive bonus is refused for insufficient profit |
| `Investment.MakeInvestment` | lib/investment.ts:5-33 | does what `Invest` says to the account the session reports, mutating the cached object itself and writing the result to storage; on failure storage and the reported account are unchanged, though an empty cache may have been filled from storage; a cached object stays the one cached, and an empty cache with a stored user ends filled |
| `Investment.WithdrawProfit` | lib/investment.ts:35-62 | does what `Withdraw` says to the account the session reports, mutating the cached object itself and writing the result to storage; on failure storage and the reported account are unchanged, though an empty cache may have been filled from storage; a cached object stays the one cached, and an empty cache with a stored user ends filled |
| `Investment.InvestThroughHeldReference` | lib/investment.ts:9-20 | a reference obtained from `getCurrentUser` before an accepted investment shows the new `invested`, and a later lookup returns that same object |
| `Investment.ReplayBalances` | lib/investment.ts:15-54 | over any sequence of investments and withdrawals, `invested` grows by exactly the accepted investments, profit stays between 0 and its start, and identity and referral figures never change |
| `Investment.ReplayFirstInvestmentDate` | lib/investment.ts:22-25 | over any sequence of calls, a set first-investment date never changes; an unset one becomes the time of the first accepted investment |
| `Users.MockInvestments` | lib/user.ts:28-33 | the mock history is four entries of 100, 200, 150 and 50, dated in the past in increasing order |
| `Users.ActiveReferrals` | lib/user.ts:44 | active referrals are the floor of 0.8 × referral count, so between 0 and the count for non-negative counts |
| `Users.ReferredInvestment` | lib/user.ts:45 | the referred investment is the amount whose 10% is the referral bonus |
| `Users.GetUserData` | lib/user.ts:35-67 | with a session user every base field is copied unchanged and the referral figures are derived; without one the fixed demo record is returned; in both cases the history is the mock list and the recent investments are its first 3 entries |
| `Users.DemoData` | lib/user.ts:51-66 | the fallback record's base fields are exactly the account the demo login returns at the same moment, and its referred investment is the one its bonus implies |
| `Users.DemoDataFigures` | lib/user.ts:52-66 | the demo record's referred investment 250 is 10 × its bonus 25, but its 2 active referrals differ from the 1 the 80% rule gives |
| `Users.Merge` | lib/user.ts:75-78 | every field the patch carries overrides the record and every absent field keeps the record's value |
| `Users.UpdateUserProfile` | lib/user.ts:69-81 | every field present in the patch overrides the snapshot and every other field is the snapshot's; an empty patch returns the snapshot; nothing is stored |
| `Users.MergeIdempotent` | lib/user.ts:75-78 | merging the same patch twice equals merging it once |
| `Dashboard.DailyRateIsLibraryRate` | lib/investment.ts:70-74 | the pages' 0.02 is the library's daily rate of 2 percent |
| `Dashboard.DaysActive` | app/dashboard/stats/page.tsx:12-14 | 0 without a first-investment date; otherwise the whole days elapsed, capped at 30, so never above 30 and not negative for a past date (the same expression as app/dashboard/balance/page.tsx:13-15 and app/dashboard/page.tsx:39-41) |
| `Dashboard.AccrualIsLinear` | app/dashboard/stats/page.tsx:19 | simple accrual is days × the one-day accrual, and each further day adds the same amount |
| `Dashboard.Accrual` | app/dashboard/stats/page.tsx:19 | the accrual `principal * 0.02 * d` is 1/50 of principal × days, and never negative for a non-negative principal and day count |
| `Dashboard.LoginDaysActive` | lib/auth.ts:75-98 | right after login the fixed admin and demo accounts have been active 15 and 10 days |
| `StatsPage.ChartLength` | app/dashboard/stats/page.tsx:17 | the chart has 7 points when days active is 0, as many as the days when positive, and none when negative |
| `StatsPage.ProfitData` | app/dashboard/stats/page.tsx:17-20 | point i is the accrual of the principal after i + 1 days when something is invested, and i + 1 otherwise |
| `StatsPage.ProfitDataLinearIncreasing` | app/dashboard/stats/page.tsx:17-20 | the profit series is linear (point i is (i + 1) times point 0) and strictly increasing |
| `StatsPage.InvestmentData` | app/dashboard/stats/page.tsx:22-27 | at most 5 entries, the front of the recent investments in order, amounts kept |
| `StatsPage.InvestmentChartOfSnapshot` | app/dashboard/stats/page.tsx:22-27 | for the snapshot of `getUserData`, the chart shows three entries: 100, 200, 150 |
| `StatsPage.DaysRemainingBounds` | app/dashboard/stats/page.tsx:79 | the days remaining in the cycle are never negative, and at most 30 unless the first date lies in the future |
| `StatsPage.DaysRemaining` | app/dashboard/stats/page.tsx:79 | `30 - daysActive` is non-negative when at most 30 days are active and at most 30 when the day count is non-negative |
| `StatsPage.Roi` | app/dashboard/stats/page.tsx:176 | with something invested, ROI × invested = profit × 100; with nothing invested it is 0, so there is no division by zero |
| `BalancePage.TotalBalanceFollowsLedger` | app/dashboard/balance/page.tsx:12 | an accepted investment raises the total balance by exactly its amount, and an accepted withdrawal lowers it by exactly its amount |
| `BalancePage.TotalBalance` | app/dashboard/balance/page.tsx:12 | with non-negative parts the total balance is non-negative and at least each of invested, profit and referral bonus |
| `BalancePage.ProjectedFinalValue` | app/dashboard/balance/page.tsx:120 | invested × 1.6 is the principal plus 30 days of simple accrual |
| `BalancePage.CycleProgress` | app/dashboard/balance/page.tsx:129 | progress × 30 = days active × 100, at most 100 within the cycle, and not negative |
| `BalancePage.CycleProgressAtMostFull` | app/dashboard/balance/page.tsx:129 | the progress computed from any first-investment date is at most 100 |
| `BalancePage.Forecast` | app/dashboard/balance/page.tsx:158-188 | the forecast exists exactly when something is invested; its five rows are the simple accrual after 7, 14, 30, 60 and 90 days |
| `BalancePage.Details` | app/dashboard/balance/page.tsx:98-129 | the detail figures exist exactly when something is invested: the amount, one day's accrual, days active, current profit, the 30-day final value, and the cycle progress `daysActive / 30 * 100` of those days, at most 100 |
| `BalancePage.NewAccountBarsAreNaN` | app/dashboard/balance/page.tsx:42-70 | as written, a newly registered account's zero total makes every breakdown bar 0 / 0 (NaN) |
| `BalancePage.ShareAsWritten` | app/dashboard/balance/page.tsx:42-70 | as written, a bar is undefined (NaN) exactly when the total is 0, and otherwise share × total = part × 100 |
| `BalancePage.Share` | app/dashboard/balance/page.tsx:42-70 | a bar is the as-written percentage when the total is not 0, is 0 when it is, and lies in [0, 100] for parts within the total |
| `BalancePage.Bars` | app/dashboard/balance/page.tsx:42-70 | with a non-zero total each of the three bars is the as-written percentage of its part; with a zero total all three are 0 |
| `BalancePage.BarsArePercentages` | app/dashboard/balance/page.tsx:42-70 | with non-negative balances the three bars lie in [0, 100] and add up to 100, or are all 0 for an empty balance |
| `WithdrawPage.TotalAvailable` | app/dashboard/withdraw/page.tsx:26-32 | the available amount is profit plus referral bonus of the session user, or 85 from the fallback figures without one |
| `WithdrawPage.WithdrawGuard` | app/dashboard/withdraw/page.tsx:34-53 | text parsing to NaN or to a value ≤ 0 is rejected first, then amounts above the available total; exactly the amounts in (0, available] are forwarded unchanged |
| `WithdrawPage.ButtonMatchesGuard` | app/dashboard/withdraw/page.tsx:200-202 | for non-empty text that parses, the button is enabled exactly when the guard forwards the amount |
| `WithdrawPage.SubmitDisabled` | app/dashboard/withdraw/page.tsx:200-202 | the button is disabled while loading and for empty text, and an enabled button with parsed text means an amount in (0, available] |
| `WithdrawPage.UnparsableTextEnablesButton` | app/dashboard/withdraw/page.tsx:200-202 | non-empty text that parses to NaN leaves the button enabled, and the guard then rejects it |
| `WithdrawPage.MaxPassesGuard` | app/dashboard/withdraw/page.tsx:165 | the "Max" amount passes the page guard exactly when the available total is positive |
| `WithdrawPage.PageAdmitsWhatLedgerRefuses` | app/dashboard/withdraw/page.tsx:46-57 | every amount in (profit, profit + bonus] passes the page and is refused by `withdrawProfit` for insufficient profit |
| `WithdrawPage.MaxFailsWithBonus` | app/dashboard/withdraw/page.tsx:165 | with a positive bonus, pressing "Max" forwards an amount the ledger refuses |
| `WithdrawPage.ForwardedAmountsLedgerVerdict` | app/dashboard/withdraw/page.tsx:46-57 | of the amounts forwarded for a logged-in user, the ledger accepts exactly those within the profit |
| `WithdrawPage.NoSessionForwardedFails` | app/dashboard/withdraw/page.tsx:26-30 | without a session the page forwards amounts up to 85, and each fails with "must be logged in to withdraw profit" |
| `WithdrawPage.WithdrawForm.constructor` | app/dashboard/withdraw/page.tsx:20-23 | the form starts with an empty amount, not loading, not succeeded |
| `WithdrawPage.WithdrawForm.HandleWithdraw` | app/dashboard/withdraw/page.tsx:34-79 | a rejected amount changes nothing; a forwarded amount goes to `withdrawProfit`; success sets the success flag, clears the amount and updates the session; failure reports the ledger's error and leaves storage and the reported account unchanged (an empty cache may have been filled from storage); loading ends cleared |
| `InvestPage.OptionsAboveMinimum` | app/dashboard/invest/page.tsx:23-24 | every preset is at least the minimum of 25, the presets ascend, and they equal the library's options and minimum |
| `InvestPage.EffectiveAmount` | app/dashboard/invest/page.tsx:27 | the custom parse is used when the sentinel -1 is selected, the selection otherwise; a selected preset is at least the minimum |
| `InvestPage.InvestGuard` | app/dashboard/invest/page.tsx:29-36 | a missing, NaN, zero or below-25 amount is rejected; any other amount is forwarded unchanged |
| `InvestPage.GuardAgreesWithLedger` | app/dashboard/invest/page.tsx:29-40 | the page forwards an amount exactly when `makeInvestment`'s minimum check accepts it, and rejects exactly what that check refuses |
| `InvestPage.ButtonMatchesGuard` | app/dashboard/invest/page.tsx:129-133 | for selections the radio group produces and custom text that parses (empty text parses to NaN), the button is enabled exactly when the guard forwards an amount |
| `InvestPage.SubmitDisabled` | app/dashboard/invest/page.tsx:129-133 | the button is disabled while loading, with nothing selected and for an empty custom amount, and an enabled button with a parsed custom amount means at least 25 |
| `InvestPage.UnparsableCustomEnablesButton` | app/dashboard/invest/page.tsx:129-133 | non-empty custom text that parses to NaN leaves the button enabled, and the guard then rejects it |
| `InvestPage.InvestForm.constructor` | app/dashboard/invest/page.tsx:19-21 | the form starts with no selection, empty custom text and not loading |
| `InvestPage.InvestForm.HandleInvest` | app/dashboard/invest/page.tsx:26-59 | a rejected amount changes nothing and `makeInvestment` is not called; a forwarded amount does what `makeInvestment` does to the session; loading ends cleared |

## Findings

| source | as written | input that shows it | evidently intended | confidence | as-written member | corrected member |
|---|---|---|---|---|---|---|
| app/dashboard/balance/page.tsx:42-70 | each breakdown bar is `part / totalBalance * 100`, with no check for a zero total | a newly registered account (invested, profit and bonus all 0): every bar is given 0 / 0, which is NaN | an empty (0%) bar when the balance is 0 | medium, not executed | `BalancePage.NewAccountBarsAreNaN` | `BalancePage.BarsArePercentages` |

## Left out

- Rendering, toasts, `router.push`/`router.refresh` and the `setTimeout` delays are not modelled: they are presentation or timing, and every call is synchronous here.
- JSON serialisation is not modelled: the storage entry holds a record value, and the parse/stringify round trip is exact. First-investment dates are modelled as milliseconds rather than ISO strings.
- Free-text parsing (`parseFloat`, `parseInt`) is an input. NaN is `None`.
- The random account id comes from `Math.random` and is an input parameter.
- Clock reads (`Date.now()`, `new Date()`) are the `now` parameter. The history dates are computed from the `now` passed to `getUserData`, not from the time the module was loaded.
- Display formatting (`toFixed`, `toLocaleString`, `toLocaleDateString`) is not modelled. Chart points are numbers, not two-decimal strings.
- Investment.Withdraw: amounts are exact reals, so the JavaScript case where a NaN amount fails both `amount <= 0` and `amount > profit`, turns the profit into NaN and reports success, is not modelled; the withdraw page's `!withdrawAmount` test keeps NaN away from this call.
- Investment.Invest: amounts are exact reals, so the JavaScript case where a NaN amount passes `amount < 25` is not modelled. Floating-point rounding is not modelled either.
- WithdrawPage.MaxPassesGuard: "Max" is taken to enter exactly the available total. The rounding of `toFixed(2)` is not modelled.
- Users.UpdateUserProfile: a patch field that is present with the value `undefined` is treated as absent. Object spread would copy it.
- The stats and balance pages take the snapshot as an input. Whether they run in the browser or on the server (where there is no storage and `inBrowser` is false) is not decided here.
- The withdraw page's method radio and wallet field are not modelled: they do not affect the handler. Neither is the invest page's `onValueChange` parse of radio values; `ReachableSelection` stands for its possible results.
- Other browser tabs sharing the storage entry, and concurrent calls while one is pending, are not modelled. Only the `loading` flag is.
- The remaining pages and components are not part of this model (landing, terms, login and register forms, settings, admin, admin login, top, referrals, history, overview, charts, layout). They are static markup, mock constants or form glue around the operations above. The overview page's `daysActive` is the same expression as `Dashboard.DaysActive`.
