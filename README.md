# Balance MGS — a Dafny model of its bookkeeping core

Balance MGS keeps a ledger of bolívar (VES) and peso (COP) transactions
together with their USDT equivalents, charges a 14% commission on income,
and closes ledgers into "consolidated periods" kept in the browser's local
storage. Two API routes supply the fiat/USDT rate, averaged from the first
five Binance P2P ads. A middleware guards the dashboard and auth pages, a
test authentication service keeps the signed-in user, and the registration
form checks the password before signing up.

This project models that core in Dafny and proves properties of the model.

- `numeric.dfy` holds JavaScript's `parseFloat` (plain decimal notation, `None` for `NaN`) and
  `toFixed(2)` (half away from zero, as digit text). It proves that reading back what
  `toFixed(2)` wrote gives the value rounded to the cent.
- `ledger.dfy` holds the transaction and period records and the pure reductions: totals,
  commission over income rows, removal and replacement by id, single-field patches, the sign
  rules of each dashboard, and the period snapshot.
- `conversion.dfy` holds `calculateUsdt`, written identically on both dashboards.
- `form.dfy` holds the new-transaction form shared by both dashboards:
  - the amount handler;
  - the effect that re-converts the draft when the rate changes;
  - the rate input's own handler, which re-converts at the rate it still sees (the previous
    one);
  - how a rate fetch sets the rate and the connection status.
- `ves_dashboard.dfy` and `cop_dashboard.dfy` are the two dashboards, as classes whose methods
  update the page state (`transactions`, the draft, `usdtRate`, the connection status). Their
  `store` is the shared `LocalStorage` object from `storage.dfy`.
  - On the bolívar dashboard, backend calls appear as their replies.
  - The peso dashboard keeps its list locally.
- `balances.dfy` is the balances page: load, delete, clear, and the general totals across the
  stored periods.
- `p2p.dfy` is the rate pipeline both routes share: first five ads, parse, drop the unparsable
  ones, take the mean.
- `binance_route.dfy` and `binance_cop_route.dfy` are the two GET handlers. They reassign their
  locals step by step, as the handlers do.
- `middleware.dfy` is the redirect decision and the matcher.
- `auth.dfy` is the `AuthService` singleton.
- `register.dfy` is the registration handler.

Network outcomes, clock readings and the session lookup are parameters of the operations that
use them.

Some behaviours of the source become explicit lemmas:
- The peso dashboard stores an income typed as "-100" as -100 (`CopDashboard.NegativeIncomeStored`).
- The peso amount edit stores a negative number typed into an expense row as positive
  (`CopDashboard.NegativeEditOfExpense`).
- When the typed rate is new but not positive, the draft shows the conversion at the previous
  rate (`Form.RateInputOutcome`).

## Model

| member | source | states |
|---|---|---|
| Numeric.ParseFloat | src/app/dashboard/page.tsx:213-215 | `parseFloat` with `None` for `NaN`: empty text never parses |
| Numeric.ParseUnsigned | src/app/dashboard/page.tsx:213-215 | unsigned decimal text: empty text never parses, and a parsed value is never negative |
| Numeric.ParseParts | src/app/dashboard/page.tsx:213-215 | digits before and after the point: no digits give NaN, and a value is at least its whole part |
| Numeric.ParseOrZero | src/app/dashboard/page.tsx:133 | `parseFloat(value) \|\| 0`: the parsed value when the text parses, 0 when it does not |
| Numeric.Round2 | src/app/dashboard/page.tsx:217 | the value `toFixed(2)` denotes is a whole number of hundredths inside the one-cent window around x whose edge at a half lies away from zero, so halves round away from zero; it has x's sign |
| Numeric.Round2Unique | src/app/dashboard/page.tsx:217 | the rounding window holds only one whole number of hundredths, so the contract of Round2 fixes its value |
| Numeric.ToFixed2 | src/app/dashboard/page.tsx:217 | `toFixed(2)` writes a '-' exactly when x < 0, then digits, a point and exactly two decimals |
| Numeric.CentsText | src/app/dashboard/page.tsx:217 | c hundredths are written as at least one digit, a point and exactly two decimals |
| Numeric.ParseFloatSigned | src/app/dashboard/page.tsx:215 | a leading minus negates what the rest parses to |
| Numeric.ToFixed2RoundTrip | src/app/dashboard/page.tsx:217 | `parseFloat(x.toFixed(2))` is x rounded to the cent, half away from zero |
| Numeric.Round2Idempotent | src/app/dashboard/page.tsx:217 | rounding an already rounded value changes nothing |
| Numeric.Round2Exact | src/app/api/binance/route.ts:113 | a whole number of cents is its own two-decimal rounding |
| Numeric.NatToDigitsRoundTrip | src/app/dashboard/page.tsx:82 | the decimal digits written for n read back as n |
| Numeric.NatToDigits | src/app/dashboard/page.tsx:82 | `String(n)` for a natural number is non-empty and all digits, with no leading zero (it starts with '0' exactly for 0) |
| Numeric.ParseFloatNat | src/app/dashboard/page.tsx:82 | integer text, with or without a minus sign, parses to its value |
| Conversion.CalculateUsdt | src/app/dashboard/page.tsx:211-218 | "" exactly when the amount or rate is empty or unparsable or the rate is 0; otherwise text that reads as amount/rate rounded to the cent |
| Conversion.NoConversion | src/app/dashboard/page.tsx:212-215 | the guard of `calculateUsdt` holds exactly when the amount or the rate does not parse or the rate is 0: the emptiness checks are subsumed, since "" never parses |
| Conversion.NegativeRateAccepted | src/app/dashboard/page.tsx:215 | a negative rate is not rejected: a non-negative amount converts to a non-positive figure within half a cent of the quotient |
| Conversion.CalculateUsdtValue | src/app/dashboard/cop/page.tsx:178-185 | with both texts parsed and a non-zero rate, the result is `toFixed(2)` of the quotient |
| Conversion.ParsesAs80120 | src/app/dashboard/cop/page.tsx:180 | "80120" parses to 80120 |
| Conversion.ParsesAs4006 | src/app/dashboard/cop/page.tsx:181 | "4006.00" parses to 4006 |
| Conversion.TwentyWritten | src/app/dashboard/cop/page.tsx:184 | 20 is written "20.00" |
| Conversion.WorkedExample | src/app/dashboard/cop/page.tsx:178-185 | 80120 COP at 4006.00 COP/USDT converts to "20.00" |
| Ledger.SumByAppend | src/app/dashboard/page.tsx:230-231 | a running sum over a concatenation is the sum of the parts |
| Ledger.SumBy | src/app/dashboard/page.tsx:230 | the reduce starts at 0 and over one element is that element's figure; with SumByAppend this fixes it |
| Ledger.SumBySingle | src/app/dashboard/page.tsx:230 | the sum over one row is that row's figure |
| Ledger.SumByCons | src/app/dashboard/page.tsx:230 | prepending a row adds its figure to the sum |
| Ledger.SumByRemove | src/app/dashboard/page.tsx:230 | a sum is any one element's figure plus the sum of the others |
| Ledger.MultisetRemove | src/app/dashboard/page.tsx:230 | removing matching elements from two permutations leaves permutations |
| Ledger.SumByPermutation | src/app/dashboard/page.tsx:230-231 | sums do not depend on the order of the rows |
| Ledger.SumByBounds | src/app/dashboard/page.tsx:230 | a sum of n figures lies between n times their bounds |
| Ledger.Incomes | src/app/dashboard/page.tsx:235 | the filter keeps exactly the income rows |
| Ledger.IncomesAppend | src/app/dashboard/page.tsx:235 | filtering a concatenation filters each part |
| Ledger.TotalFiat | src/app/dashboard/page.tsx:230 | `totalBs`: 0 for no rows, the row's amount for one row; additive by TotalsAppend |
| Ledger.TotalUsdt | src/app/dashboard/page.tsx:231 | `totalUsdt`: 0 for no rows, the row's USDT for one row; additive by TotalsAppend |
| Ledger.Commission | src/app/dashboard/page.tsx:233-236 | `commission`: 0 for no rows, 14% of the USDT of a single income row and 0 for a single expense |
| Ledger.LedgerTotals | src/app/dashboard/page.tsx:230-236 | the three live figures: zero for no rows, the row's own figures for one row |
| Ledger.TotalsAppend | src/app/dashboard/page.tsx:230-236 | fiat total, USDT total and commission are additive over concatenation |
| Ledger.CommissionByRows | src/app/dashboard/page.tsx:233-236 | the commission is the sum over rows of 14% of each income row's USDT |
| Ledger.TotalsPermutation | src/app/dashboard/page.tsx:230-236 | totals and commission do not depend on row order |
| Ledger.EmptyTotals | src/app/dashboard/page.tsx:230-236 | an empty ledger has zero totals and commission |
| Ledger.CommissionNonNegative | src/app/dashboard/page.tsx:233-236 | with expenses non-positive and income non-negative, the commission is not negative |
| Ledger.MaxRowCommission | src/app/dashboard/page.tsx:233-236 | a non-negative bound on every row's commission share |
| Ledger.Without | src/app/dashboard/cop/page.tsx:143-145 | no remaining element carries the id, and the list does not grow |
| Ledger.WithoutCounts | src/app/dashboard/cop/page.tsx:144 | elements with the id are all gone; every other element keeps its multiplicity |
| Ledger.WithoutAppend | src/app/dashboard/balances/page.tsx:50 | filtering preserves order: it distributes over concatenation |
| Ledger.WithoutAbsent | src/app/dashboard/page.tsx:115 | deleting an id no element carries changes nothing |
| Ledger.WithoutIdempotent | src/app/dashboard/page.tsx:115 | deleting the same id twice is deleting it once |
| Ledger.UpdatePayload | src/app/dashboard/page.tsx:128-135 | the date is sent verbatim; an amount field gets `NumericValue` of the value: the text parsed, 0 for unparsable text, a number kept |
| Ledger.ApplyPatch | src/app/dashboard/cop/page.tsx:155-163 | `{ ...t, [field]: value }`: the edited field takes the value; every other field, id included, is kept |
| Ledger.PatchChangesOneField | src/app/dashboard/cop/page.tsx:155-163 | an edit changes only its own field, keeping id, description, type and owner |
| Ledger.PatchRows | src/app/dashboard/cop/page.tsx:152-166 | length and every id kept; rows without the id unchanged; rows with the id edited |
| Ledger.ReplaceRows | src/app/dashboard/page.tsx:141-143 | length kept; rows without the id unchanged; rows with the id become the backend's row, which keeps the ids when it carries that id |
| Ledger.ReplaceByPatchedRow | src/app/dashboard/page.tsx:137-143 | when the backend answers with the stored row patched, replacing is patching locally |
| Ledger.PatchRowsInit | src/app/dashboard/cop/page.tsx:153 | patching commutes with dropping the last row |
| Ledger.SumByPatchRows | src/app/dashboard/cop/page.tsx:147-167 | a figure the edit does not touch keeps its sum |
| Ledger.PatchRowsTotals | src/app/dashboard/cop/page.tsx:197-203 | a date edit keeps all totals; a fiat edit keeps the USDT total and commission; a USDT edit keeps the fiat total |
| Ledger.VesSigned | src/app/dashboard/page.tsx:83-90 | magnitude kept; expense non-positive, income non-negative |
| Ledger.CopSigned | src/app/dashboard/cop/page.tsx:128-132 | magnitude kept; expense non-positive; income exactly as entered |
| Ledger.DateOr | src/app/dashboard/page.tsx:638-643 | a row's date, or today's when the row's is empty |
| Ledger.BuildPeriod | src/app/dashboard/page.tsx:634-655 | the period holds all rows, starts at the first row's date and ends at the last's, and stores the live totals and commission |
| Form.ConversionIsNumberText | src/app/dashboard/page.tsx:211-218 | the conversion is always "" or a number, as a number input holds |
| Form.WithFiatAmount | src/app/dashboard/page.tsx:221-228 | the amount handler stores the text and its conversion at the current rate, keeping the draft's number inputs valid |
| Form.RateEffect | src/app/dashboard/page.tsx:59-67 | the rate effect changes only the draft's USDT text, and only when the rate changed, a fiat amount is present and the rate is positive |
| Form.RateEffectConverts | src/app/dashboard/page.tsx:59-67 | when it fires, the USDT text reads as fiat/rate rounded to the cent |
| Form.RateInput | src/app/dashboard/page.tsx:421-431 | the rate input keeps the draft's number inputs valid |
| Form.RateInputOutcome | src/app/dashboard/page.tsx:421-431 | a draft with a fiat amount shows its conversion at the new rate if that rate is new and positive, else at the previous rate |
| Form.FetchedRate | src/app/dashboard/page.tsx:178-204 | connected with the served price exactly on a 200 reply; otherwise error with the fallback text |
| VesDashboard.NewRow | src/app/dashboard/page.tsx:81-94 | the record sent is labelled "Transacción #(n+1)", dated today and owned by the user, keeps the magnitudes typed, and is non-positive for an expense, non-negative for income |
| VesDashboard.AddMovesTotals | src/app/dashboard/page.tsx:81-99 | if the backend stores the record as sent, the new row follows the sign convention and adding it moves the totals by its amounts and the commission by 14% of its USDT magnitude for income only |
| VesDashboard.Dashboard.constructor | src/app/dashboard/page.tsx:12-25 | no rows, empty income draft, rate "0", status idle |
| VesDashboard.Dashboard.LoadTransactions | src/app/dashboard/page.tsx:46-56 | with a user, the list becomes the backend's or an alert is raised; without one nothing happens |
| VesDashboard.Dashboard.ChangeFiatAmount | src/app/dashboard/page.tsx:221-228 | the draft takes the amount and its conversion; rows untouched |
| VesDashboard.Dashboard.ChangeUsdtAmount | src/app/dashboard/page.tsx:590-595 | only the draft's USDT text changes |
| VesDashboard.Dashboard.ChangeKind | src/app/dashboard/page.tsx:536-541 | only the draft's type changes |
| VesDashboard.Dashboard.ChangeRate | src/app/dashboard/page.tsx:421-431 | the rate takes the text; the draft is re-converted as the handler and the effect do; rows untouched |
| VesDashboard.Dashboard.AddTransaction | src/app/dashboard/page.tsx:69-110 | the record is sent exactly when a user is signed in and both amounts are present; no user, missing amounts or a failed insert: alert and nothing changes; otherwise the backend's row is prepended and the draft reset |
| VesDashboard.Dashboard.DeleteTransaction | src/app/dashboard/page.tsx:112-120 | after a successful delete the rows with the id are gone; on failure alert and no change |
| VesDashboard.Dashboard.UpdateTransaction | src/app/dashboard/page.tsx:122-148 | sends the update object; rows with the id become the backend's row only after success |
| VesDashboard.Dashboard.FetchUsdtRate | src/app/dashboard/page.tsx:159-208 | a 200 reply sets the served price and "connected"; anything else "180.00" and "error"; the rate effect then runs |
| VesDashboard.Dashboard.Consolidate | src/app/dashboard/page.tsx:631-686 | with rows, exactly one period is appended to "consolidatedPeriods", then rows, draft and rate reset; without rows only an alert |
| CopDashboard.UsdtOrZero | src/app/dashboard/cop/page.tsx:123 | an empty USDT field is stored as 0 |
| CopDashboard.ZeroTextParses | src/app/dashboard/cop/page.tsx:123 | "0" parses to 0 |
| CopDashboard.NewRow | src/app/dashboard/cop/page.tsx:119-132 | the row keeps the description and is dated today; an expense stores -\|x\|, income the parsed values as typed |
| CopDashboard.NegativeIncomeStored | src/app/dashboard/cop/page.tsx:128-132 | an income typed "-100" is stored as -100, against the sign convention |
| CopDashboard.NewRowSign | src/app/dashboard/cop/page.tsx:128-132 | non-negative amounts give a row with the sign convention |
| CopDashboard.AddMovesTotals | src/app/dashboard/cop/page.tsx:134 | appending moves the totals by the row's amounts and the commission by 14% of its USDT for income only |
| CopDashboard.EditedAmount | src/app/dashboard/cop/page.tsx:699-707 | the edited amount has the magnitude typed (0 if unparsable), and for non-negative input the row type's sign |
| CopDashboard.NegativeEditOfExpense | src/app/dashboard/cop/page.tsx:699-707 | "-5" typed into an expense row's amount is stored as 5 |
| CopDashboard.Dashboard.constructor | src/app/dashboard/cop/page.tsx:24-37 | no rows, empty income draft, rate "0", status idle |
| CopDashboard.Dashboard.ChangeDescription | src/app/dashboard/cop/page.tsx:583-588 | only the draft's description changes |
| CopDashboard.Dashboard.ChangeFiatAmount | src/app/dashboard/cop/page.tsx:188-195 | the draft takes the amount and its conversion; rows untouched |
| CopDashboard.Dashboard.ChangeUsdtAmount | src/app/dashboard/cop/page.tsx:563-568 | only the draft's USDT text changes |
| CopDashboard.Dashboard.ChangeKind | src/app/dashboard/cop/page.tsx:509-514 | only the draft's type changes |
| CopDashboard.Dashboard.ChangeRate | src/app/dashboard/cop/page.tsx:385-395 | the rate takes the text; the draft is re-converted as the handler and the effect do; rows untouched |
| CopDashboard.Dashboard.AddTransaction | src/app/dashboard/cop/page.tsx:116-141 | adds exactly when description and peso amount are present: one row appended at the end, draft reset; otherwise no change |
| CopDashboard.Dashboard.DeleteTransaction | src/app/dashboard/cop/page.tsx:143-145 | exactly the rows with the id are removed, the rest kept in order |
| CopDashboard.Dashboard.UpdateTransaction | src/app/dashboard/cop/page.tsx:147-167 | one field of the rows with the id changes; all other rows unchanged |
| CopDashboard.Dashboard.EditDate | src/app/dashboard/cop/page.tsx:677-682 | the rows with the id take the date text verbatim |
| CopDashboard.Dashboard.EditAmount | src/app/dashboard/cop/page.tsx:697-737 | the edited amount field of the rows with that row's id becomes the typed number signed by the row's type |
| CopDashboard.Dashboard.FetchUsdtRate | src/app/dashboard/cop/page.tsx:65-114 | a 200 reply sets the served price and "connected"; anything else "4000.00" and "error"; the rate effect then runs |
| CopDashboard.Dashboard.Consolidate | src/app/dashboard/cop/page.tsx:227-278 | with rows, exactly one period is appended to "consolidatedCopData", then rows, draft and rate reset; without rows only an alert |
| Balances.GeneralTotals | src/app/dashboard/balances/page.tsx:77-98 | null exactly when there are no periods; for one period, the figures it stores |
| Balances.AllRows | src/app/dashboard/balances/page.tsx:15-26 | no periods hold no rows |
| Balances.GeneralTotalsOfConsistent | src/app/dashboard/balances/page.tsx:80-97 | when every period stores its own rows' figures, the general totals are the totals of all consolidated rows |
| Balances.StoredSumsOfConsistent | src/app/dashboard/balances/page.tsx:80-97 | each stored sum across periods equals the same figure over all their rows, when every period is consistent |
| Balances.GeneralTotalsAppend | src/app/dashboard/balances/page.tsx:80-91 | appending any period adds the totals it stores, not those of its rows, to the general totals |
| Balances.ConsolidationAddsLiveTotals | src/app/dashboard/balances/page.tsx:80-97 | consolidating a ledger adds its live totals to the general totals |
| Balances.BalancesPage.constructor | src/app/dashboard/balances/page.tsx:29-32 | no periods, hidden |
| Balances.BalancesPage.Load | src/app/dashboard/balances/page.tsx:34-41 | with the key present the list is the stored one, shown iff non-empty; otherwise nothing changes |
| Balances.BalancesPage.DeletePeriod | src/app/dashboard/balances/page.tsx:49-56 | removes exactly the periods with the id, writes that list back, hides an emptied list |
| Balances.BalancesPage.ClearConsolidatedData | src/app/dashboard/balances/page.tsx:43-47 | the key is removed, the list emptied and hidden |
| P2P.FirstAds | src/app/api/binance/route.ts:43 | at most the first five ads, in order |
| P2P.ParsedPrices | src/app/api/binance/route.ts:42-45 | never more prices than ads; one ad gives its parsed price, or nothing when it is NaN |
| P2P.ParsedPricesAppend | src/app/api/binance/route.ts:44-45 | the filter works ad by ad: a concatenation gives the prices of each part, in order |
| P2P.UnparsableDropped | src/app/api/binance/route.ts:44-45 | an unparsable price is dropped wherever it stands and the others are kept in order |
| P2P.ParsedPricesOrigin | src/app/api/binance/route.ts:44-45 | every kept price is some ad's parsed price; none are kept exactly when none parse |
| P2P.ParsedPricesAll | src/app/api/binance/route.ts:44-45 | when every ad parses, the prices are their values in order |
| P2P.Mean | src/app/api/binance/route.ts:48-49 | the mean lies between the least and the greatest value, and is the value itself for one value |
| P2P.MeanTimesCount | src/app/api/binance/route.ts:48-49 | the mean, added once per value, gives back the sum: it is sum / length |
| P2P.AverageOfParsedPrices | src/app/api/binance/route.ts:42-49 | the average, added once per parsable price among the first five, is their sum: unparsable ones are dropped, not counted as zero |
| P2P.AveragePrice | src/app/api/binance/route.ts:42-53 | an average exists only when some of the first five prices parse, and lies between the least and greatest of them |
| P2P.P2PRate | src/app/api/binance/route.ts:10-62 | an OK, successful reply with an average gives that average; otherwise the rate is the default |
| P2P.UsdcRate | src/app/api/binance/route.ts:64-86 | an OK reply with a non-empty price gives that price parsed; any other reply gives 1 |
| P2P.MeanBounds | src/app/api/binance/route.ts:48-49 | the mean lies between any bounds of the prices |
| P2P.DivideBounds | src/app/api/binance/route.ts:49 | dividing a sum of n values by n keeps the bounds |
| P2P.MinOf | src/app/api/binance/route.ts:47-49 | the least kept price |
| P2P.MaxOf | src/app/api/binance/route.ts:47-49 | the greatest kept price |
| P2P.AverageWithinPrices | src/app/api/binance/route.ts:42-50 | the average lies between the lowest and highest parsable price of the first five ads |
| P2P.AverageOfParsableAds | src/app/api/binance/route.ts:42-50 | up to five parsable ads average to their plain mean |
| P2P.LaterAdsIgnored | src/app/api/binance/route.ts:43 | ads after the fifth never change the average |
| P2P.NoAverageWhenUnparsable | src/app/api/binance/route.ts:47-53 | no average exactly when none of the first five prices parses |
| P2P.P2PRateFallback | src/app/api/binance/route.ts:36-62 | a thrown call, non-OK status, `success` false, no ads or no parsable price keeps the default |
| P2P.P2PRatePositive | src/app/api/binance/route.ts:10-53 | positive prices and a positive default give a positive rate |
| VesRateRoute.Get | src/app/api/binance/route.ts:3-143 | 200 exactly when the USD/VES call is OK with a non-zero VES rate, then the price is the P2P rate to two decimals and the USDT/USDC figure defaults to 1; otherwise 500 with "180.00" and the error's message |
| VesRateRoute.FxError | src/app/api/binance/route.ts:99-135 | the 500 message: a thrown error's own, "No se pudo obtener la tasa VES" on an OK reply without the rate, else "Exchange Rate API error: " and digits that read back as the status |
| VesRateRoute.FxUsable | src/app/api/binance/route.ts:100-111 | the reference reply is usable exactly when it is OK and carries a non-zero VES rate (a missing or zero rate is falsy); `Get` serves a price exactly then |
| VesRateRoute.ServedPriceMeaning | src/app/api/binance/route.ts:113 | the served price reads back as the P2P rate rounded to the cent, not negative when the prices are positive |
| VesRateRoute.FallbackIsDefaultWritten | src/app/api/binance/route.ts:135 | "180.00" is the default 180.0 written with two decimals |
| CopRateRoute.Get | src/app/api/binance-cop/route.ts:3-118 | 200 unless an unexpected exception occurs, with the P2P rate to two decimals; otherwise 500 with "4000.00" |
| CopRateRoute.FallbackIsDefaultWritten | src/app/api/binance-cop/route.ts:110 | "4000.00" is the default 4000.0 written with two decimals |
| CopRateRoute.AverageOfFiveAds | src/app/api/binance-cop/route.ts:42-50 | ads at 4000, 4010, 3995, 4005 and 4020 average to 4006 whatever follows |
| CopRateRoute.MeanOfFive | src/app/api/binance-cop/route.ts:48-49 | the mean of those five prices is 4006 |
| Middleware.Decide | src/middleware.ts:63-80 | to "/auth/login" exactly without a session on a "/dashboard" path, to "/dashboard" exactly with one on an "/auth" path, else through; a redirect keeps origin and query |
| Middleware.Handle | src/middleware.ts:83-85 | only paths under /dashboard and /auth reach the guard |
| Middleware.NoRedirectLoop | src/middleware.ts:64-75 | a redirect target is intercepted and then let through with the same session |
| Middleware.PrefixesMatchSections | src/middleware.ts:83-85 | within the matcher, the prefix tests pick the matching section |
| Auth.Resolve | src/lib/auth.ts:76-91 | the cached user, else the stored one in a browser, else nobody |
| Auth.ResolveIdempotent | src/lib/auth.ts:85-86 | asking again after restoring reports the same user |
| Auth.AuthService.constructor | src/lib/auth.ts:21-23 | no current user |
| Auth.AuthService.Login | src/lib/auth.ts:32-49 | succeeds exactly for the test credentials, then the user is the test user, stored in a browser; a failure reports "Credenciales inválidas" and changes nothing |
| Auth.AuthService.Register | src/lib/auth.ts:51-67 | always succeeds with the given name and email, and signs that user in |
| Auth.AuthService.Logout | src/lib/auth.ts:69-74 | forgets the user in memory and, in a browser, in storage |
| Auth.AuthService.GetCurrentUser | src/lib/auth.ts:76-91 | reports the cached, else restored, user and caches it |
| Auth.AuthService.IsAuthenticated | src/lib/auth.ts:93-95 | true exactly when the current user resolves to someone |
| Auth.AuthRegistry.constructor | src/lib/auth.ts:22 | no instance yet |
| Auth.AuthRegistry.GetInstance | src/lib/auth.ts:25-30 | the first call creates the service; every later call returns that same object |
| Storage.LocalStorage.constructor | src/app/dashboard/balances/page.tsx:35 | no key set |
| Register.Validate | src/app/auth/register/page.tsx:22-32 | mismatch first, then length under 6, else accepted |
| Register.MismatchReportedFirst | src/app/auth/register/page.tsx:22-26 | mismatched passwords are never reported as too short |
| Register.SixCharactersAccepted | src/app/auth/register/page.tsx:28 | six characters are accepted, five are not |
| Register.RegisterPage.constructor | src/app/auth/register/page.tsx:8-13 | empty fields, not loading, no messages |
| Register.RegisterPage.HandleRegister | src/app/auth/register/page.tsx:16-49 | signs up exactly for valid input; sets the check's error otherwise; the success or rejection message after; loading ends false |

## Left out

- `parseFloat` reads plain decimal notation only. Leading whitespace, prefix parsing ("12abc" is 12), exponents and "Infinity" are read as unparsable.
- `toFixed(2)` and the averages use exact reals, not binary floating point. Halves that floating point cannot represent may round differently, and `toFixed` writes values of 1e21 and above exponentially.
- VesDashboard.Dashboard.AddTransaction: its `Valid()` precondition says the amounts are "" or a number, as a number input guarantees. The `NaN` the source would store for other text is not modelled.
- VesDashboard.Dashboard.AddTransaction: the row prepended is the one the backend returns. That it holds the record sent, under a new id, is stated only as the premise of `VesDashboard.AddMovesTotals`.
- CopDashboard.Dashboard.AddTransaction: the same restriction as the bolívar add.
- The `Intl.NumberFormat` display helpers (`formatBs`, `formatUsdt`, `formatCop`) only format output.
- The network, timers, `AbortSignal` timeouts and page navigation are not modelled:
  - backend and route replies are parameters;
  - `Date.now()` and `new Date()` readings are parameters;
  - redirects after consolidation or registration are not modelled.
- The mount effects that load rows and fetch the rate are the separate methods `LoadTransactions` and `FetchUsdtRate`. Their scheduling is not modelled.
- `editingId`, `consolidatedIds`, `lastUpdateTime` and `isLoadingRate` hold only UI state that no modelled figure depends on.
- Local storage holds decoded values, not JSON text. Malformed JSON is not modelled.
- The middleware's cookie adapter is library plumbing. The session lookup is a parameter.
- The auth service's one-second delays are not modelled. Its static field is the `AuthRegistry` object.
- The routes' `timestamp`, `source` and log output are not modelled. An ad whose `adv` has no `price` gives `parseFloat(undefined)`, which is NaN and is filtered out: it is an unparsable text in `prices`. Only an ad among the first five with no `adv` at all (or a null ad) throws inside the guarded block; that is the `P2PFailed` reply.
- Password lengths count Dafny characters, not UTF-16 code units. The two agree outside the astral planes.
- The peso balances page reads `data.periods` from "consolidatedCopData", but the peso dashboard writes a bare list there. That page is display only and is not part of this model.
- src/lib/supabase-services.ts is not part of this model. Its calls appear only as replies.
