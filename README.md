# Datatrans transactions generator — a Dafny model of its core

The generator drives test transactions against the Datatrans sandbox gateway.
For each merchant configuration it builds a pool of tasks, one per configured
copy of a flow type. It shuffles the pool and runs each task in turn:

- It picks a currency, a saved payment instrument, an amount and a reference number.
- It authorises a transaction.
- It runs the flow type's handler: the captures, refunds (credits),
  cancellations and top-ups (increases) the flow calls for.
- It keeps a statistics table and a list of failed flows for the final summary.

Every gateway call goes through a retrying client with exponential backoff.
That client returns a 400 on `authorize` as an expected decline.

This project models that core in Dafny and proves what it promises:

| module | file | models |
|---|---|---|
| `Common` | `common.dfy` | `Option` and `Result` |
| `Strings` | `strings.dfy` | the JavaScript string operations the code uses (`includes`, `startsWith`, `replace` with a string pattern, `split(c)[0]`, removal of every `-`, ASCII case mapping) |
| `Json` | `json.dfy` | JSON values, truthiness, and the `undefined` field that serialisation drops |
| `Config` | `config.dfy` | merchant configurations and saved instruments, as the core reads them; an instrument's `payload` is an object, shared and updated in place |
| `Helpers` | `helpers.dfy` | `getRandomElement`, `getRandomNumber`, `generateRefNo` (`app/lib/utils/helpers.js`) |
| `Base64` | `base64.dfy` | the UTF-8 and Base64 encoding behind the `Authorization` header (RFC 3629; RFC 4648 section 4) |
| `Handlers` | `handlers.dfy` | `app/lib/api/handlers.js`: the URL, the header, `callAPI`, the operation requests, `initiateFlow`, `authorizeMIT`, `initCIT` with its in-place rewrite of article prices |
| `Flows` | `flows.dfy` | `app/lib/core/flows.js`: every handler as the ordered operations it issues |
| `Selection` | `selection.dfy` | `app/lib/main.js`: instrument choice, amount choice, the pool, the planned counts |
| `Executor` | `executor.dfy` | `app/lib/main.js`: one task's disposition, a whole run as a `Run` object holding the statistics and the failure list |
| `PaymentPage` | `payment_page.dfy` | the decisions of `app/lib/core/paymentPageHandler.js`: type dispatch, card entries, 3-D Secure code, final-redirect check |

Randomness, the UUID, the network and the authorisation result are inputs:

- `Math.random()` is a value of `Helpers.Random`, a real in [0, 1).
- A UUID is its five hexadecimal groups.
- A gateway call receives the sequence of outcomes its successive attempts meet.
- A task receives all of these at once in an `Executor.TaskDraws`.

The shuffle is an input too: `Executor.ExecuteFlows` accepts any permutation of the pool.

Handlers are modelled in two forms:

- Loops over accumulators are methods proved equal to recursive specifications:
  - `Flows.RefundMany` and `Flows.TopUpManyCapture` (the handler loops);
  - `Selection.BuildPool` (the pool loops);
  - `Executor.Run` (the statistics loops).
- Straight-line handlers and pure builders are functions.

### Source behaviour the model keeps

The model reproduces these quirks of the code as written:

- **`authorizeMIT` never returns `null`.** Its `catch` branch for a 400 cannot be reached: `callAPI` already returns a 400 on `authorize` as a response (`Handlers.AuthorizeMitNeverNull`).
- **3-D Secure code for the decline flow.** The error code is typed only for the flow type `decline3DS`. The handler table's decline flow is `CIT-decline3DS`, so that flow answers with the success code (`PaymentPage.DeclineFlowAnswersWithSuccessCode`).
- **Handler table extras.** The table also exposes its shared `_capture`, `_cancel` and `_credit` entries as flow types.
- **`initCIT` mutates the instrument.** It rewrites the instrument's shared payload in place. The rewrite throws on a `null` article, leaving the earlier articles rewritten.
- **Refund-many amounts.** Its non-final refunds may be 0 for small balances.
- **Negative Successful count.** The summary's Successful count goes below zero when a merchant's amount configuration is invalid. That failure is recorded without being counted (`Executor.InvalidAmountsMakeSuccessfulNegative`).

## Model

| member | source | states |
|---|---|---|
| `Helpers.GetRandomElement` | app/lib/utils/helpers.js:3 | undefined exactly for an empty array, otherwise a member of the array |
| `Helpers.GetRandomElementReaches` | app/lib/utils/helpers.js:3 | every element of a non-empty array is chosen by some draw |
| `Helpers.GetRandomNumber` | app/lib/utils/helpers.js:4 | with `min <= max` the result lies in `[min, max]`; with an inverted range it lies in `(max, min]` |
| `Helpers.GetRandomNumberReaches` | app/lib/utils/helpers.js:4 | every integer of `[min, max]` is drawn for some `r` |
| `Helpers.UuidDigits` | app/lib/utils/helpers.js:9 | removing the dashes from a UUID leaves its 32 hexadecimal digits, in order |
| `Helpers.PrefixUpTo` | app/lib/utils/helpers.js:9 | `substring(0, end)` is a prefix of the string whose length is `end` clamped to `[0, length]`, or the whole string when `end` is undefined |
| `Helpers.RandomRefNoShape` | app/lib/utils/helpers.js:8-10 | a random reference is the prefix followed by the first `min(L, 32)` UUID digits, with `L` one of the configured lengths, and holds no dash after the prefix |
| `Helpers.RandomRefNoNoLengths` | app/lib/utils/helpers.js:8-10 | with no length choices, the whole dash-less UUID follows the prefix |
| `Helpers.GenerateRefNo` | app/lib/utils/helpers.js:7-13 | a policy other than `random` yields its fixed `refno`; a random reference is the prefix followed by a prefix of the dash-less UUID, all of it when no lengths are configured |
| `Strings.ReplaceFirst` | app/lib/api/handlers.js:96-101 | `replace` with a string pattern changes only the first occurrence, and changes nothing without one |
| `Strings.ToLower` | app/lib/api/handlers.js:55 | lower-casing keeps the length, leaves no upper-case ASCII letter, and keeps each character up to ASCII case |
| `Strings.ToUpper` | app/lib/core/paymentPageHandler.js:20 | upper-casing keeps the length, leaves no lower-case ASCII letter, and keeps each character up to ASCII case |
| `Strings.ToUpperCanonical` | app/lib/core/paymentPageHandler.js:20 | strings equal up to ASCII case upper-case to the same string, and upper-casing twice changes nothing more |
| `Strings.BeforeFirst` | app/lib/core/paymentPageHandler.js:186 | `split(c)[0]` is the longest prefix without `c` |
| `Strings.Remove` | app/lib/utils/helpers.js:9 | `replace(/-/g, '')` leaves no dash, keeps every other character as often as it occurs, so the result is shorter by exactly the number of dashes, and changes nothing in a string without one |
| `Strings.RemoveAppend` | app/lib/utils/helpers.js:9 | removing dashes from a concatenation removes them from each part |
| `Base64.DecodeEncode` | app/lib/api/handlers.js:5 | Base64 encoding loses nothing: decoding the encoding gives back the bytes |
| `Base64.Utf8Char` | app/lib/api/handlers.js:5 | one to four UTF-8 bytes per character, a single byte equal to its code exactly for ASCII |
| `Base64.Utf8Ascii` | app/lib/api/handlers.js:5 | an ASCII string is encoded as its own character codes |
| `Handlers.TransactionUrl` | app/lib/api/handlers.js:12 | the URL starts with the transactions base and equals it exactly when the endpoint is empty; otherwise a `/` follows the base, then the endpoint |
| `Handlers.TransactionUrlRoundTrip` | app/lib/api/handlers.js:12 | the endpoint is read back from what follows the base and its `/`, so different endpoints reach different URLs |
| `Handlers.AuthHeader` | app/lib/api/handlers.js:4-6 | the header starts with `Basic ` |
| `Handlers.AuthHeaderCarriesCredentials` | app/lib/api/handlers.js:4-6 | what follows `Basic ` decodes to exactly the UTF-8 bytes of `merchantId:password` (section 2 of RFC 7617) |
| `Handlers.Delays` | app/lib/api/handlers.js:36-38 | one wait per retry |
| `Handlers.DelaysAt` | app/lib/api/handlers.js:36-38 | the wait before retry i + 1 is `backoff * 2^i` |
| `Handlers.CallApi` | app/lib/api/handlers.js:10-40 | 1 to `retries + 1` attempts; every attempt but the last was retryable; the call stops early only at a resolution or an `authorize` 400; the result is the last attempt's response or error; one doubling wait before each retry and none after the last |
| `Handlers.CallApiErrs` | app/lib/api/handlers.js:26-34 | a call throws exactly when every attempt in the budget fails retryably, and then it rethrows the last error after `retries + 1` attempts |
| `Handlers.DefaultScheduleWhenAllFail` | app/lib/api/handlers.js:10-38 | with the defaults, six attempts, waits of 1, 2, 4, 8 and 16 seconds, then the sixth failure is thrown |
| `Handlers.AuthorizeDeclineNotRetried` | app/lib/api/handlers.js:27-29 | a 400 on `authorize` is returned at once as the response, whatever budget remains |
| `Handlers.OtherBadRequestRetried` | app/lib/api/handlers.js:27-38 | a 400 on any other endpoint is retried after the first backoff |
| `Handlers.OperationRequest` | app/lib/api/handlers.js:145-183 | capture, credit and increase post to `<id>/settle`, `<id>/credit` and `<id>/increase` exactly the keys `amount` and `refno`, plus `currency` when it is defined, holding the operation's amount and reference and the currency; cancel posts `{}` to `<id>/cancel` |
| `Handlers.OperationRequestInjective` | app/lib/api/handlers.js:145-183 | two different operations on one transaction never send the same request |
| `Handlers.AutoSettleRoutes` | app/lib/api/handlers.js:55-116 | MIT settles automatically exactly when CIT would and the instrument is a card |
| `Handlers.MitInstrument` | app/lib/api/handlers.js:56-63 | the instrument object holds exactly the alias, the expiry month and year for cards only, and the payload exactly when there is one, each with the instrument's value |
| `Handlers.MitBody` | app/lib/api/handlers.js:51-64 | the body holds exactly `refno`, `amount`, `autoSettle`, `currency` when defined, and the instrument object under the instrument type; the top-level keys hold the reference, the amount, the MIT settle rule and the currency |
| `Handlers.AuthorizeMit` | app/lib/api/handlers.js:50-92 | `authorizeMIT` posts the MIT body of its own arguments and the instrument's payload to `authorize`; a returned response answers its status and transaction id, a thrown 400 answers `null`, any other error is rethrown |
| `Handlers.AuthorizeMitNeverNull` | app/lib/api/handlers.js:66-87 | `authorizeMIT` never answers `null`; a first-attempt 400 comes back as data with status 400 |
| `Handlers.RefNoSubstituted` | app/lib/api/handlers.js:95-101 | a URL template keeps everything around its first `:refNo`, and that occurrence becomes the reference |
| `Handlers.CitFixedFields` | app/lib/api/handlers.js:109-118 | before the payload is spread, the body holds exactly `refno`, `paymentMethods`, `redirect`, `webhook`, `amount`, `autoSettle` and `currency` when defined, with the reference, the card brand or instrument type, the three redirect URLs, the webhook, the amount, the CIT settle rule and the currency |
| `Handlers.CitBody` | app/lib/api/handlers.js:109-122 | the body holds exactly `refno`, `paymentMethods`, `redirect`, `webhook`, `amount`, `autoSettle`, `currency` when defined, and the payload's keys; a payload key keeps its payload value, and every fixed key the payload does not name holds the reference, the card brand or instrument type, the three redirect URLs, the webhook, the amount, the CIT settle rule or the currency |
| `Handlers.ArticlePricesRewritten` | app/lib/api/handlers.js:103-107 | when the rewrite completes, every article object is priced at the amount, and nothing else in the payload changes |
| `Handlers.RewriteArticlePrices` | app/lib/api/handlers.js:103-107 | the in-place loop leaves the payload as the rewrite specifies, and throws exactly when there is no articles array or an article is `null`, with the `TypeError` text of that case |
| `Handlers.InitCit` | app/lib/api/handlers.js:94-143 | an instrument without an order is left untouched; otherwise the prices are rewritten; a rewrite error throws with its `TypeError` text before anything is sent; otherwise the CIT body is posted and the answer is the transaction id, page location and redirect URLs |
| `Handlers.InitiateFlow` | app/lib/api/handlers.js:43-48 | `CIT…` flow types go to `initCIT`, with its price rewrite, its error, its posted body and its answer; all others go to `authorizeMIT`, whose request and answer are returned, leaving the payload untouched |
| `Flows.HandlerFor` | app/lib/core/flows.js:4-84 | a found handler is the one stored under exactly that key |
| `Flows.HandlerForName` | app/lib/core/flows.js:4-84 | every handler is found under its own key |
| `Flows.TopUpDelta` | app/lib/core/flows.js:57 | the single top-up is never above the amount, and is not negative for a non-negative amount and limit |
| `Flows.RefundMany` | app/lib/core/flows.js:46-54 | the loop issues exactly the refund splits of the amount |
| `Flows.RefundSplitsSpec` | app/lib/core/flows.js:46-54 | the splits are credits `ref-refi` … `ref-refk` that refund exactly the remaining balance, each within `[0, remaining]` when it is not negative |
| `Flows.TopUpManyCapture` | app/lib/core/flows.js:74-83 | the loop issues exactly the drawn increases, then the capture of the running total |
| `Flows.TopUpStepsSpec` | app/lib/core/flows.js:74-83 | one increase per size, referenced `ref-inc(i+1)` onward, then a capture of the total plus everything increased |
| `Flows.TopUpDraw` | app/lib/core/flows.js:78 | a top-up is at least 1 for a non-negative amount, and lies in `[50, floor(amt*0.2)]` when that range is well formed |
| `Flows.FlowOperations` | app/lib/core/flows.js:4-84 | no handler issues more than five operations, and exactly `decline`, `authorizeNoCapture`, `authorizeAutoCapture` and `CIT-decline3DS` issue none |
| `Flows.CaptureRefundFlows` | app/lib/core/flows.js:21-44 | cancel and capture flows issue their one operation; the refund flows issue exactly a capture and a credit `ref-ref`, of the amount or of 70% of it rounded down as each flow takes it; that share lies in `(0.7·amt − 1, 0.7·amt]` and within `[0, amt]` |
| `Flows.PartialRefundOfThousand` | app/lib/core/flows.js:34-38 | an amount of 1000 is captured in full and refunded for 700 |
| `Flows.RefundManyFlow` | app/lib/core/flows.js:46-54 | two to four credits `ref-ref1` … `ref-refk` that refund the amount exactly |
| `Flows.TopUpFlows` | app/lib/core/flows.js:56-72 | increase by Δ = min(amt·limit/100, amt) ≤ amt under `ref-inc`, then capture and refund `amt + Δ`, in that order |
| `Flows.TopUpManyFlow` | app/lib/core/flows.js:74-83 | two to four increases `ref-inc1` … `ref-inck`, each at least 1 for a non-negative amount and within `[50, 20% of the amount]` whenever that range is not empty, then one capture of exactly the amount plus all of them |
| `Flows.CapturedWithinAmount` | app/lib/core/flows.js:4-84 | across the whole flow table, no flow captures more than the transaction amount plus the increases it made |
| `Flows.CreditedWithinCaptured` | app/lib/core/flows.js:4-84 | no flow refunds more than it captured, except the bare `_credit` and the auto-captured refund-many (which refunds at most the amount) |
| `Flows.TopUpManyConsistent` | app/lib/core/flows.js:74-83 | the several-top-ups flow captures exactly the amount plus its increases and refunds nothing |
| `Selection.Candidates` | app/lib/main.js:15-25 | the filters keep exactly the eligible instruments: those for the currency, with a decline range for `decline`, and cards for top-up flows |
| `Selection.GetPaymentMethod` | app/lib/main.js:14-28 | the result is an eligible saved instrument, and there is none exactly when no instrument is eligible |
| `Selection.GetPaymentMethodReaches` | app/lib/main.js:14-28 | every eligible instrument is chosen by some draw |
| `Selection.GetTransactionAmount` | app/lib/main.js:30-46 | the decline range comes first, then a non-empty `specific` list, then a two-bound `range`; the configuration error is thrown exactly when none applies |
| `Selection.AdjustAmountForSuccess` | app/lib/main.js:48-54 | a success range replaces the amount with a draw from it; without one the amount is kept |
| `Selection.Pool` | app/lib/main.js:68-75 | the pool holds as many tasks as all configured counts together |
| `Selection.PoolMembers` | app/lib/main.js:68-75 | a task is in the pool exactly when its merchant configures its flow type with a positive count |
| `Selection.PoolFlowTypeCount` | app/lib/main.js:68-75 | the pool holds, per flow type, its count summed over the merchants |
| `Selection.BuildPool` | app/lib/main.js:68-75 | the nested loops push exactly the pool |
| `Selection.FlowTypeCountPermutation` | app/lib/main.js:78 | shuffling does not change how many tasks each flow type has |
| `Selection.InitialStatisticsSpec` | app/lib/main.js:58-65 | the table has a row for exactly the configured flow types, each planning its counts summed over merchants with nothing executed |
| `Selection.AsWrittenStatistics` | app/lib/main.js:58-65 | the table as written: each configured flow type gets a row planning the count of its last entry in the last merchant that configures it, nothing executed, and other rows are kept |
| `Selection.AsWrittenPlannedUndercounts` | app/lib/main.js:58-65 | two merchants planning 2 and 3 of one flow type: the pool holds 5 tasks, the table as written plans 3, and the summed table plans 5 |
| `Executor.RecordedRefNo` | app/lib/main.js:151 | an undefined or empty reference is recorded as `N/A`, any other is recorded as it is |
| `Executor.RecordedTransactionId` | app/lib/main.js:144-147 | a non-empty transaction id in the error's response data is recorded as it is; without a response or such an id it is `N/A` |
| `Executor.Perform` | app/lib/main.js:135-137 | the flow completes exactly when every call succeeds; otherwise the first failing call stops it and its error is reported |
| `Executor.HandlerOperations` | app/lib/main.js:135-137 | a flow type without a handler issues nothing, and no flow issues more than five operations |
| `Executor.Dispose` | app/lib/main.js:84-156 | a task is skipped exactly when no saved instrument is eligible; every failure record names its task's flow type and has non-empty reference and transaction fields |
| `Executor.DeclineNeverOperates` | app/lib/main.js:123-127 | a `decline` task never completes a flow and sends no operation |
| `Executor.UncountedFailureIsAmountError` | app/lib/main.js:94-155 | a failure raised before counting is exactly the amount configuration error, recorded with `N/A` ids; with valid amounts every task not skipped is counted |
| `Executor.DisposeCompletesFlow` | app/lib/main.js:119-137 | with an authorisation that answers data and calls that succeed, a non-decline task sends exactly its flow's operations, in order, to `<transactionId>/<action>` |
| `Executor.AsWrittenEveryCountedTaskFails` | app/lib/main.js:119-121 | with the missing `authorize`, every counted task, `decline` included, fails before any operation with transaction id `N/A` |
| `Executor.AuthOf` | app/lib/api/handlers.js:43-138 | the transaction id of the initiation is passed on; a thrown error stays an error; `null` only from `authorizeMIT` |
| `Executor.Authorize` | app/lib/main.js:119-121 | the authorisation step through `initiateFlow`: a merchant-initiated task gets `authorizeMIT`'s answer, which is never `null` |
| `Executor.SummaryArithmetic` | app/lib/main.js:163-165 | Successful = totalTests − failed equals the succeeded tasks less the failures raised before counting |
| `Executor.SuccessfulIsSucceeded` | app/lib/main.js:163-165 | with valid amount configurations, Successful is exactly the number of declined, unauthorised and completed tasks, so never negative |
| `Executor.InvalidAmountsMakeSuccessfulNegative` | app/lib/main.js:94-164 | an invalid amount configuration makes Successful −1 for one task |
| `Executor.ExecutedWithinPlanned` | app/lib/main.js:58-103 | for any shuffle, no flow type runs more often than its summed planned count |
| `Executor.Run.constructor` | app/lib/main.js:58-65 | a run starts at zero tests, no failures and the summed initial table |
| `Executor.Run.Tally` | app/lib/main.js:102-154 | a counted task raises `totalTests` and its flow type's `executed` by one and leaves every other flow type's statistics alone; only a failure appends its record |
| `Executor.Run.ExecuteTasks` | app/lib/main.js:83-157 | after the loop, `totalTests` has grown by the number of counted tasks, each flow type's `executed` by its counted tasks with `planned` untouched, and the failure list by the records of the failed tasks in task order |
| `Executor.Run.RunTask` | app/lib/main.js:84-156 | one loop iteration: a task is disposed of from its draws and the run's counters and failure list move by exactly that disposition |
| `Executor.FirstError` | app/lib/main.js:135-137 | no error exactly when every call answered; otherwise the index of the first failing call, every earlier one having succeeded |
| `Executor.Priced` | app/lib/main.js:94-154 | once a payment method is found a task is never skipped; an amount that cannot be read fails it before it is counted, recorded with reference and transaction `N/A`; otherwise it goes on to authorisation |
| `Executor.Authorised` | app/lib/main.js:99-154 | an authorisation that throws fails a task counted, recording its error, without sending anything; otherwise a `decline` task is declined, a `null` answer leaves any other task not authorised, and a data answer runs the flow's requests on the returned transaction id |
| `Executor.Operated` | app/lib/main.js:129-154 | a flow completes having sent every request exactly when each call succeeds; otherwise it fails counted at the first failing call, having sent the requests up to and including it, with a record of its flow type, reference, that call's error and transaction id |
| `Executor.TableStep` | app/lib/main.js:101-103 | tallying one more task raises its flow type's `executed` by one when it is counted, and moves the table from the counts over the earlier tasks to the counts including it |
| `Selection.PoolMerchants` | app/lib/main.js:68-75 | a task is in the pool exactly when some configuration is its merchant and configures its flow type with a positive count |
| `Executor.ExecuteFlows` | app/lib/main.js:56-157 | on any shuffle of the pool, the table has a row for exactly the configured flow types, each planning its summed count and executing at most that, and the failures are listed in task order |
| `PaymentPage.Dispatch` | app/lib/core/paymentPageHandler.js:20-35 | CARD, PAP, KLN and PFC reach their handlers, compared after upper-casing; any other type is `Unsupported payment method` |
| `PaymentPage.DispatchIgnoresCase` | app/lib/core/paymentPageHandler.js:20 | types equal up to case reach the same handler |
| `PaymentPage.CardTypeDispatched` | app/lib/core/paymentPageHandler.js:20-22 | the saved type `card` reaches the card handler |
| `PaymentPage.CardEntries` | app/lib/core/paymentPageHandler.js:49-55 | number and expiry are typed first, and the CVV is typed exactly when the brand is not CUP |
| `PaymentPage.Otp` | app/lib/core/paymentPageHandler.js:169-178 | the error code for exactly `decline3DS`, the success code otherwise; an instrument without codes fails the challenge |
| `PaymentPage.DeclineFlowAnswersWithSuccessCode` | app/lib/core/paymentPageHandler.js:169-171 | the flow type `CIT-decline3DS` answers the challenge with the success code |
| `PaymentPage.VerifyFinalRedirect` | app/lib/core/paymentPageHandler.js:183-192 | the final URL is accepted exactly when it contains the query-less part of some pattern, and is then returned unchanged |
| `PaymentPage.RedirectEdgeCases` | app/lib/core/paymentPageHandler.js:186-188 | no pattern always fails; an empty pattern always passes |
| `PaymentPage.LandingOnRedirectPasses` | app/lib/core/paymentPageHandler.js:186-191 | landing on any redirect URL, with any query appended, passes |
| `PaymentPage.SessionOutcome` | app/lib/core/paymentPageHandler.js:20-73 | an unsupported type fails before the page is checked; a card that meets the 3-D Secure challenge without codes fails with the card handler's and the challenge's wrapped message; success means a supported type, no such failure and a matching final URL; every error carries the session prefix |
| `PaymentPage.MissingCodesFailSession` | app/lib/core/paymentPageHandler.js:69-73 | a card without 3-D Secure codes that meets the challenge fails the session even when the browser ends on the success URL |

## Left out

- Browser automation: launching Puppeteer, waits, typing, clicking, the DCC coin-flip and the PayPal, Klarna and PostFinance page steps are calls into a driver library. Only the decisions are modelled. `main.js` never calls the payment page handler.
- HTTP transport, `delay` and `sleep` timing: each call's attempt outcomes are an input and the waits are returned as a list; the randomized think-times of `main.js` are not modelled.
- Logging, reading the configuration files and process start-up are I/O; `app/lib/utils/logger.js`, `app/lib/utils/config.js` and `app/index.js` are not part of this model.
- Randomness: `Math.random()`, `uuidv4()` and the sort-based shuffle are inputs. The shuffle is only required to be a permutation of the pool. `Array.prototype.sort` with a random comparator does not in fact yield every permutation with equal probability.
- Floating point: `Math.floor(x * 0.7)`, `* 0.3`, `* 0.2` and the top-up Δ are computed on exact reals. IEEE double rounding can differ by one at some amounts, and the model does not claim bit-exact results.
- Amounts are integers. Configured amounts and ranges that are not whole numbers are not modelled.
- JSON key order: bodies are maps. Serialised key order is not modelled. `transactionFlows` entries are taken in the object's key order.
- `String.prototype.replace` special `$` patterns in the reference are not modelled. Case mapping is ASCII only.
- The `uid` argument of the flow handlers only appears in log lines. `main.js` does not pass it.
- `Flows.TopUpDraw`: for an amount below 250 the range `[50, floor(amt*0.2)]` is inverted. Only the bounds `getRandomNumber` gives such a range are stated there. The capture-total equation of `Flows.TopUpManyFlow` holds regardless.
- `Executor.Authorize`: states the merchant-initiated route only. The customer-initiated route's answer is `Handlers.InitCit`'s, stated there. The executor's dispositions take the authorisation answer as an input (`Executor.AuthResult`).
- `Executor.ExecuteFlows`: takes the shuffled pool and every task's draws as inputs rather than drawing them.
- `Handlers.InitCit`: the messages of a failed price rewrite are the `TypeError` texts of the V8 engine, one per case (no `articles`, `articles: null`, `articles` that is not an array, a `null` article), written out as constants; other engines word them differently.
- `PaymentPage.Otp`: a missing `3DS` object yields the V8 `TypeError` text as a constant.
- `PaymentPage.SessionOutcome`: assumes every browser step other than reading the 3-D Secure codes succeeds (waiting for selectors, typing, navigation, the DCC page, the PayPal, Klarna and PostFinance pages); a timeout or a missing element in those steps is not modelled. The page the card handler is on after the form submission is an input.
- `Config.MerchantConfig`: `transactionFlows` is a sequence of entries, so it can name a flow type twice, which a parsed JSON object cannot. The pool, planned-count and statistics members also cover such inputs; what they state holds for them as well, and the program never meets them.

## Findings

| source | as written | input that shows it | evidently intended | confidence | as-written member | corrected member |
|---|---|---|---|---|---|---|
| app/lib/main.js:119-121 | the executor calls `transactionOperations.authorize`, which `handlers.js` does not define, so every task that reaches authorisation throws `transactionOperations.authorize is not a function`; its arguments are also in `authorizeMIT`'s order, flow type last, while `initiateFlow` takes the flow type second | any task with an eligible instrument and a valid amount, e.g. `authorizeCapture` | authorise through `initiateFlow`, called with its own argument order, then decline, skip on `null`, or run the handler | not executed | `Executor.AsWrittenEveryCountedTaskFails` | `Executor.Authorize` |
| app/lib/main.js:58-65 | each merchant's entry sets `planned` for its flow type, replacing the count of an earlier merchant with the same flow type | two merchants configuring `authorizeCapture` 2 and 3 times: the pool holds 5 tasks, `planned` is 3, and the summary can print `5/3 executed` | `planned` is the flow type's count summed over merchants, the number of its tasks in the pool | not executed | `Selection.AsWrittenPlannedUndercounts` | `Selection.InitialStatisticsSpec` |
