# MMM-Sbanken in Dafny

A model of the deterministic core of MMM-Sbanken, a MagicMirror widget that
shows Sbanken account balances, and of its backend helper. The model proves
properties of that core.

- The widget's side is in `MMM-Sbanken.js`. It holds the refresh state
  driven by socket notifications (token → bank accounts → payments →
  transactions). It also holds `getDom` and its three section builders:
  - the account list with aliases and a subtotal;
  - the projected balance after the upcoming payments, with "needs refill"
    warnings;
  - today's transactions, with the text cleanup and salary detection.
- The helper's side is in `node_helper.js`. It holds `getError`, the reply
  handling, and the counting fan-in that collects the per-account payment
  and transaction replies into one notification.

The DOM is a sequence of `Line`s in document order. A translated text is a
fixed tag, and an amount is the `real` it would be formatted from.

Modules:
- `JsText` models the JavaScript string and number semantics the core
  relies on:
  - `toLowerCase` and `toUpperCase`, restricted to ASCII and Latin-1
    letters (see "## Left out");
  - `trim`;
  - `parseInt`;
  - the property name a number converts to.

  Numbers are exact integers, not doubles (see "## Left out").
- `BankApi` holds the records the bank returns, the `{error, responseCode}`
  payload, and the payload of a PAYMENTS / TRANSACTIONS notification.
- `TransactionText` models the cleanup `toLowerCase` → `replace(/ nok | kurs|\d|\*|:|\./g, '')`
  → `trim` → capitalise.
- `Display` holds the pure functions that say which lines each section
  shows and what state it leaves.
- `Widget` holds the widget object. It is a `class` whose fields are the
  JavaScript object's fields. Its methods keep the source's loops and
  updates, and each is proved against the `Display` functions.
- `NodeHelper` holds `getError`, the reply handling and the fan-in, as they
  behave once the syntax error at node_helper.js:13 is repaired. The
  fan-in is a method whose loop runs over a sequence of settlement events,
  and it is proved against a specification function.
- `WidgetProperties` holds properties across several calls: a full refresh
  cycle, the flags that are never reset, and rendering twice. It also holds
  the worked projection example and what the fan-in delivers to the widget.
- `CleanupExamples` holds worked examples of the transaction-text cleanup.

## Where the code differs from its specification

The model follows the code in each of these places.
- An empty `displayOnlyAccounts` array shows no accounts.
  - `!aryShowAccounts` is false for any array (MMM-Sbanken.js:171-172, 191).
  - Only a falsy option shows them all.
  - See `Display.EmptyAllowListShowsNothing` and `Display.FalsyAllowListShowsAll`.
  - Under the defaults (`displayOnlyAccounts: []`) no account line and no
    subtotal appear; see `Display.DefaultsShowNoAccounts`.
- The subtotal line depends on the sum being nonzero (MMM-Sbanken.js:326).
  It does not depend on the `sumAccounts` subset being non-empty.
- A payment counts as due when the projection instant is strictly later
  than its due date (MMM-Sbanken.js:215). The projection instant is now,
  with the day of the month moved to `payDay + payDayBufferDays`. So a
  payment due at midnight on that very day is subtracted only once that day
  has begun; see `Display.MidnightPaymentDueIff`.
- Salary labels are not deduplicated: one label per qualifying transaction.
  See `Display.SalaryLabelsNotDeduplicated`.
- The cleanup of "NOK 123.45 Kurs: Foo*Bar" gives "Nok  foobar", not
  "Foo bar". The reasons:
  - ` nok ` needs a space on both sides, so a leading "nok" stays;
  - ` kurs` is removed together with its leading space;
  - `*` is removed without leaving a space.

  The smaller examples in `CleanupExamples` show each of these effects.
- The aggregate notification does not always follow the last settlement.
  See "## Findings".

## Model

| member | source | states |
|---|---|---|
| JsText.LowerChar | MMM-Sbanken.js:250 | Latin-1 lower-casing: a character lower-cases to a digit exactly when it is a digit, and to `*`, `:`, `.` or a space exactly when it is that character |
| JsText.ToLowerCase | MMM-Sbanken.js:250 | Latin-1 `toLowerCase` keeps the length and lower-cases position by position |
| JsText.ToLowerCaseAppend | MMM-Sbanken.js:250 | lower-casing a concatenation is the concatenation of the lower-cased parts |
| JsText.UpperChar | MMM-Sbanken.js:252 | Latin-1 upper-casing of one character gives one or two characters (`ß` becomes `SS`) |
| JsText.CapitalizeFirst | MMM-Sbanken.js:252 | `charAt(0).toUpperCase() + slice(1)`: the empty string stays empty; otherwise only the first character changes, the rest is kept |
| JsText.TrimStartCuts | MMM-Sbanken.js:251 | the left trim removes exactly the leading run of white space and leaves a non-blank first character |
| JsText.TrimEndCuts | MMM-Sbanken.js:251 | the right trim removes exactly the trailing run of white space and leaves a non-blank last character |
| JsText.TrimIsSlice | MMM-Sbanken.js:251 | `trim` returns a contiguous slice of its input |
| JsText.TrimEnds | MMM-Sbanken.js:251 | a trimmed string neither starts nor ends with white space; a string that already does not is returned unchanged |
| JsText.DigitRunStops | MMM-Sbanken.js:182 | the digit prefix `parseInt` reads is all digits and stops at the first non-digit |
| JsText.DecimalIsCanonical | MMM-Sbanken.js:192 | the decimal text of a number is canonical (digits only, no leading zero) and denotes that number |
| JsText.DigitsValueOfCanonical | MMM-Sbanken.js:182 | a canonical digit string is the decimal text of its own value |
| JsText.ParseDigitsOfDecimal | MMM-Sbanken.js:182 | reading the decimal text of `m` in radix 10 gives `m` |
| JsText.ParseIntOfDigits | MMM-Sbanken.js:182 | `parseInt` of a digit string without a hex prefix is its radix-10 value |
| JsText.ParseIntOfNegated | MMM-Sbanken.js:182 | `parseInt` of `-` followed by such a digit string is minus its value |
| JsText.NumberKeyParsesBack | MMM-Sbanken.js:192 | the property name an integer converts to parses back to that integer |
| JsText.CanonicalKeyRoundTrip | MMM-Sbanken.js:245-246 | a canonical account number read with `parseInt` and used as a property name is the same key the helper stored it under |
| JsText.TrimStart | MMM-Sbanken.js:251 | the left half of `trim`: drops the leading ECMAScript white space and line terminators (its properties are in `TrimStartCuts`) |
| JsText.TrimEnd | MMM-Sbanken.js:251 | the right half of `trim`: drops the trailing white space and line terminators (its properties are in `TrimEndCuts`) |
| JsText.Trim | MMM-Sbanken.js:251 | `String.prototype.trim`: both ends trimmed (its properties are in `TrimIsSlice` and `TrimEnds`) |
| JsText.ParseInt | MMM-Sbanken.js:182 | `parseInt(s)` with no radix: skips leading white space, reads an optional sign, a `0x`/`0X` prefix selects radix 16, then reads the longest digit run; no digit gives `None` (NaN) |
| JsText.NumberKey | MMM-Sbanken.js:192 | the property name a parsed account number converts to: its decimal text with a leading `-` when negative, and `"NaN"` for NaN |
| TransactionText.MatchAt | MMM-Sbanken.js:251 | a match of the pattern at a position is 0, 1 or 5 characters long, and is 1 exactly when the character there is a digit, `*`, `:` or `.` |
| TransactionText.StripNoise | MMM-Sbanken.js:251 | the global `replace` of ` nok `, ` kurs`, digits, `*`, `:` and `.` by nothing: scans left to right, drops each match and keeps every other character (its properties are in `StripNoiseRemovesNoise`, `StripNoiseKeepsIff` and `StripNoiseAppend`) |
| TransactionText.CleanText | MMM-Sbanken.js:250-252 | the transaction label: lower-case, strip the pattern, trim, upper-case the first character (its property is in `CleanTextHasNoNoise`) |
| TransactionText.MatchAtAppend | MMM-Sbanken.js:251 | text appended after a part whose last four characters are not spaces does not change the match at its start |
| TransactionText.StripNoiseAppend | MMM-Sbanken.js:251 | the global replace on a concatenation is the replace on each part, when no match straddles the boundary |
| TransactionText.StripNoiseRemovesNoise | MMM-Sbanken.js:251 | after the replace no digit, `*`, `:` or `.` is left, and every remaining character comes from the input |
| TransactionText.StripNoiseKeepsIff | MMM-Sbanken.js:251 | the replace never lengthens the text; it removes something exactly when the pattern matches at some position, and otherwise returns the text unchanged |
| TransactionText.UpperCharAddsNoNoise | MMM-Sbanken.js:252 | upper-casing introduces no digit, `*`, `:` or `.` that was not already there |
| TransactionText.TrimKeepsClean | MMM-Sbanken.js:251 | trimming a text free of those characters keeps it free of them |
| TransactionText.CapitalizeKeepsClean | MMM-Sbanken.js:252 | capitalising a text free of those characters keeps it free of them |
| TransactionText.CleanTextHasNoNoise | MMM-Sbanken.js:250-252 | the cleaned transaction label contains no digit, `*`, `:` or `.` |
| CleanupExamples.CleanStarExample | MMM-Sbanken.js:250-252 | "Foo*Bar" is cleaned to "Foobar" |
| CleanupExamples.CleanLeadingNokExample | MMM-Sbanken.js:250-252 | "NOK 5" is cleaned to "Nok": a leading currency word is kept |
| CleanupExamples.CleanInnerNokExample | MMM-Sbanken.js:250-252 | "Kiwi NOK 5" is cleaned to "Kiwi": " nok " is removed with both spaces |
| BankApi.EntryFor | MMM-Sbanken.js:246 | an account's entry in a PAYMENTS / TRANSACTIONS payload exists exactly when the payload is a map holding that key, and is the value stored there |
| Display.AliasOr | MMM-Sbanken.js:192 | `labelAlias[key] ? labelAlias[key] : fallback`: the alias when present and non-empty, else the fallback |
| Display.Shown | MMM-Sbanken.js:171-172 | an account is shown when `displayOnlyAccounts` is falsy or includes its parsed number |
| Display.Summed | MMM-Sbanken.js:173-183 | an account is summed when `sumAccounts` is truthy and includes its parsed number |
| Display.AccountLabel | MMM-Sbanken.js:192 | the alias of the parsed account number, or the account's name |
| Display.AccountLineOf | MMM-Sbanken.js:191-194 | one line with the label and balance for a shown account, none otherwise |
| Display.AccountLines | MMM-Sbanken.js:181-195 | the account lines of the list in order (its properties are in `AccountLineIff`, `AccountLineSource` and `ShownAccountHasLine`) |
| Display.SubtotalSum | MMM-Sbanken.js:177-189 | the sum of the balances of the summed accounts, in list order |
| Display.SubtotalLines | MMM-Sbanken.js:325-330 | the rule and the subtotal line appear exactly when the summed balance is nonzero, and carry that sum |
| Display.AccountLineSource | MMM-Sbanken.js:181-194 | every account line comes from a shown account, with that account's label and balance |
| Display.ShownAccountHasLine | MMM-Sbanken.js:191-193 | every shown account gets its line |
| Display.AccountLineIff | MMM-Sbanken.js:181-194 | a line is in the account section exactly when some account is shown and the line carries its alias-or-name label and its balance |
| Display.FalsyAllowListShowsAll | MMM-Sbanken.js:171-172 | with a falsy `displayOnlyAccounts`, the account section has one line per account, in list order, each with that account's alias-or-name label and balance |
| Display.FalsyAllowListLineCount | MMM-Sbanken.js:171-172 | with a falsy `displayOnlyAccounts`, there are as many account lines as accounts |
| Display.FalsyAllowListLineAt | MMM-Sbanken.js:181-194 | with a falsy `displayOnlyAccounts`, line `k` carries account `k`'s alias-or-name label and balance |
| Display.EmptyAllowListShowsNothing | MMM-Sbanken.js:171-172 | with `displayOnlyAccounts: []`, no account gets a line |
| Display.NothingSummedNoSubtotal | MMM-Sbanken.js:177-189 | when no account is in `sumAccounts` the sum is 0 and no subtotal is shown |
| Display.DefaultsShowNoAccounts | MMM-Sbanken.js:24-27 | under the default options neither account lines nor a subtotal are shown |
| Display.Projected | MMM-Sbanken.js:211-225 | the account list after the projection loop: `ProjectAccount` of each account, in order; its contract keeps the number of accounts, and what each account becomes is in `ProjectedAt` |
| Display.ProjectedAt | MMM-Sbanken.js:211-219 | the projection changes only `balance`; credit-card accounts are untouched; other accounts lose the sum of their payments due before the projection instant |
| Display.ProjectedStaysCovered | MMM-Sbanken.js:211-214 | after the projection, every account still has the payment list the next projection will read |
| Display.ProjectedTwice | MMM-Sbanken.js:216 | projecting twice subtracts the due payments twice, because the balance is updated in place |
| Display.DueSum | MMM-Sbanken.js:214-218 | the sum of the amounts of the payments whose due date is strictly before the projection instant |
| Display.ProjectAccount | MMM-Sbanken.js:212-219 | a credit-card account unchanged; any other account with its balance lowered by `DueSum` of its payments (its properties are in `ProjectedAt`) |
| Display.RefillLines | MMM-Sbanken.js:220-223 | one "needs refill" line per non-credit-card projected account at or below 0, in order (its properties are in `NeedsRefillIff` and `RefillLinesAreRefills`) |
| Display.FutureLines | MMM-Sbanken.js:205-229 | the rule, the refill warnings, and the "all accounts are in balance" line when there is no warning (its property is in `AllInBalanceIff`) |
| Display.Today | MMM-Sbanken.js:239 | `moment().startOf('day')`: midnight of the clock's day |
| Display.Projection | MMM-Sbanken.js:201-203 | now, with the day of the month set to `payDay + payDayBufferDays` (its property is in `MidnightPaymentDueIff`) |
| Display.NothingDueSubtractsNothing | MMM-Sbanken.js:214-218 | when no payment falls due, nothing is subtracted |
| Display.RefillLinesAreRefills | MMM-Sbanken.js:220-223 | the warning lines are all "needs refill" lines |
| Display.NeedsRefillIff | MMM-Sbanken.js:220-223 | a "needs refill" line names an account exactly when some non-credit-card account of that name is at or below 0 |
| Display.RefillLinesEmptyIff | MMM-Sbanken.js:209-223 | there is no warning exactly when no account needs a refill |
| Display.AllInBalanceIff | MMM-Sbanken.js:209-229 | "all accounts are in balance" is shown exactly when no account needs a refill |
| Display.MidnightPaymentDueIff | MMM-Sbanken.js:201-203 | a payment due at midnight on day `d` counts exactly when `d` is before the refill day, or is that day once it has begun |
| Display.IsToday | MMM-Sbanken.js:249 | the interest date is today's midnight and the source is not `Archive` |
| Display.Listed | MMM-Sbanken.js:256-264 | every transaction is listed, or only those with a negative amount when `showOnlyExpensesInTransactions` is set |
| Display.IsSalary | MMM-Sbanken.js:266-268 | `salaryAccounts` is truthy and includes the account's number, and the amount exceeds `salaryNotificationMinimumAmount` |
| Display.TransactionLabel | MMM-Sbanken.js:250-255 | the cleaned text, followed by the account name in parentheses for an `Avtalegiro` transaction |
| Display.SalaryLabel | MMM-Sbanken.js:103-107 | the alias of the number, or the number's decimal text |
| Display.TransactionLines | MMM-Sbanken.js:244-275 | the transaction lines of all accounts, account by account (its properties are in `TransactionLineIff` and `TransactionLinesEmptyIff`) |
| Display.SalaryLabels | MMM-Sbanken.js:244-275 | the salary labels of all accounts, one per qualifying transaction (its properties are in `SalaryLabelSource` and `AccountSalaryLabelCount`) |
| Display.SalaryAndTransactionLines | MMM-Sbanken.js:277-293 | the salary banner when `salaryReceived`, then with `showTransactionsToday` the placeholder when there are no lines, or the rule, the optional header and the lines (its property is in `PlaceholderIff`) |
| Display.TransactionLineSource | MMM-Sbanken.js:249-264 | every line of an account comes from one of its transactions that is dated today, not archived, and is an expense when only expenses are shown; the line carries the cleaned label and the amount |
| Display.ListedTransactionHasLine | MMM-Sbanken.js:249-264 | every such transaction gets its line |
| Display.AccountTransactionLineIff | MMM-Sbanken.js:249-264 | a line belongs to an account exactly when one of its listed transactions of today produces it |
| Display.TransactionLineAccount | MMM-Sbanken.js:244-247 | every transaction line belongs to one of the accounts |
| Display.AccountTransactionLinesIncluded | MMM-Sbanken.js:244-247 | every account's transaction lines are in the section |
| Display.TransactionLineIff | MMM-Sbanken.js:244-275 | a line is in the section exactly when it is one of some account's transaction lines |
| Display.AccountTransactionLinesEmptyIff | MMM-Sbanken.js:249-264 | an account contributes no line exactly when none of its transactions is listed today |
| Display.PlaceholderIff | MMM-Sbanken.js:281-283 | the "no transactions" placeholder appears exactly when `showTransactionsToday` is on and no account contributed a line |
| Display.TransactionLinesEmptyIff | MMM-Sbanken.js:244-275 | the section is empty exactly when every account contributes nothing |
| Display.AccountTransactionLinesAreEntries | MMM-Sbanken.js:259 | transaction lines are account lines (label and amount) |
| Display.TransactionLinesHaveNoPlaceholder | MMM-Sbanken.js:281-292 | the listed lines never include the placeholder |
| Display.AccountSalaryLabelCount | MMM-Sbanken.js:266-270 | a salary account gets one label per transaction of today above the minimum amount; any other account gets none |
| Display.AccountSalaryLabelsName | MMM-Sbanken.js:103-107 | every salary label of an account is the alias of its parsed number, or the number itself |
| Display.SalaryLabelsNotDeduplicated | MMM-Sbanken.js:107 | two qualifying transactions on one account give its label twice |
| Display.SalaryLabelSource | MMM-Sbanken.js:244-270 | every salary label comes from one of the accounts |
| Widget.Initial | MMM-Sbanken.js:42-53 | the state `start` leaves: empty containers, not loaded, no salary, and GET_TOKEN requested |
| Widget.Receive | MMM-Sbanken.js:115-133 | the new state after one notification: TOKEN, BANK_ACCOUNTS, PAYMENTS and TRANSACTIONS store their payload; the first three also queue the next request, BANK_ACCOUNTS sets `loaded`, and any other notification changes nothing (its properties are in `RefreshCycle` and `FlagsNeverReset`) |
| Widget.ErrorText | MMM-Sbanken.js:317-321 | "Too many requests" for code 429, otherwise "An error occured (" with the code and ")", followed by ". Retry in 20 seconds" (its property is in `ErrorTextIdentifiesCode`) |
| Widget.Render | MMM-Sbanken.js:296-339 | `getDom`: the loading line, the error notice with a retry, or the header, accounts, subtotal, projection, salary and transactions with the new state (its properties are in `RenderWhileLoading`, `RenderError`, `RenderKeepsRenderable` and `ProjectionOnlyRender`) |
| Widget.Widget.constructor | MMM-Sbanken.js:42-53 | `start` leaves empty containers, nothing loaded, no salary, and the token requested |
| Widget.Widget.SocketNotificationReceived | MMM-Sbanken.js:115-133 | each notification stores its payload and requests the next stage. BANK_ACCOUNTS also sets `loaded`. Only TRANSACTIONS asks for a redraw |
| Widget.Widget.SetSalaryReceived | MMM-Sbanken.js:103-108 | sets `salaryReceived` and appends the account's alias-or-number label, changing nothing else |
| Widget.Widget.DisplayAndSumAccounts | MMM-Sbanken.js:170-197 | the loop emits exactly the account section and returns the sum over `sumAccounts` |
| Widget.Widget.DisplayFutureAccountBalance | MMM-Sbanken.js:199-230 | the loop replaces the stored accounts by their projection and emits the rule, the refill warnings and the in-balance line for it |
| Widget.Widget.ProjectOneAccount | MMM-Sbanken.js:212-224 | one account's pass gives its projection and reports whether it needs a refill |
| Widget.Widget.DisplaySalaryAndTransactions | MMM-Sbanken.js:232-294 | the loops clear and refill the salary labels, set `salaryReceived` if any label appeared, and emit the salary banner, the placeholder or the header and the transaction lines |
| Widget.Widget.ScanAccount | MMM-Sbanken.js:244-275 | one account adds its transaction lines and salary labels, and `noExpenses` stays true exactly while no line was added |
| Widget.Widget.ScanTransactions | MMM-Sbanken.js:247-273 | the inner loop adds the lines and salary labels of the account's transactions |
| Widget.Widget.ScanTransaction | MMM-Sbanken.js:249-271 | one transaction adds its line and salary label, if any |
| Widget.Widget.GetDom | MMM-Sbanken.js:296-339 | `getDom` emits the lines of the rendering and leaves the state the rendering describes |
| WidgetProperties.RefreshCycle | MMM-Sbanken.js:115-133 | TOKEN, BANK_ACCOUNTS, PAYMENTS, TRANSACTIONS in order request accounts, payments and transactions with the latest token and list, store all four payloads, and set `loaded` |
| WidgetProperties.FlagsNeverReset | MMM-Sbanken.js:123 | `loaded` becomes true only through BANK_ACCOUNTS and is never reset; rendering never clears `salaryReceived` |
| WidgetProperties.RenderWhileLoading | MMM-Sbanken.js:300-304 | before the account list has arrived, rendering shows only the loading line and changes nothing |
| WidgetProperties.RenderError | MMM-Sbanken.js:316-324 | an account-list error renders the header and the error notice, schedules a retry, changes nothing, and shows no account line |
| WidgetProperties.ErrorTextIdentifiesCode | MMM-Sbanken.js:317-321 | different response codes give different error notices |
| WidgetProperties.RenderKeepsRenderable | MMM-Sbanken.js:211-216 | after a rendering, the next rendering can again read every account's payments |
| WidgetProperties.RenderTwiceProjectsTwice | MMM-Sbanken.js:216 | rendering twice with the same payments subtracts the due payments twice from the stored balance |
| WidgetProperties.SalaryBannerStays | MMM-Sbanken.js:277-279 | once `salaryReceived` is set, every later rendering shows the salary banner |
| WidgetProperties.ProjectionOnlyRender | MMM-Sbanken.js:325-336 | with no account lines, no subtotal, no transactions and no salary, rendering shows the header, the projection section and the placeholder |
| WidgetProperties.ProjectionExample | MMM-Sbanken.js:199-230 | account 1001 with balance 5000 and a 2000 payment due on the 18th, rendered on the 10th with the defaults, projects to 3000 and shows "all accounts are in balance" |
| WidgetProperties.CollectedFromFulfilled | node_helper.js:81-87 | every entry of the collected map is the body of some fulfilled settlement |
| WidgetProperties.EverySettled | node_helper.js:60-93 | once as many settlements as requests have arrived, every account has settled |
| WidgetProperties.FulfilledPaymentsCoverAccounts | node_helper.js:81-87 | when every payment request is fulfilled with items, the helper sends one map in which every account the widget will project has a payment list |
| NodeHelper.GetError | node_helper.js:7-9 | `getError(code)` is an error payload carrying exactly that code |
| NodeHelper.ReplyPayload | node_helper.js:43-47 | a reply without transport error and with status 200 gives its body; any other reply gives the error payload with its status code |
| NodeHelper.AccountCount | node_helper.js:52-57 | `accountCount` is the length of `items`, or 0 when `items` is undefined |
| NodeHelper.AccountIds | node_helper.js:60-63 | one request per account, addressed by its `accountId`, in list order |
| NodeHelper.HandleFanIn | node_helper.js:51-98 | the handlers make one request per account when enabled and `items` is present. They count every settlement, log each failed account, and send exactly what the fan-in specification says |
| NodeHelper.Collected | node_helper.js:84 | the map the success handlers build: each successful settlement's body under its account number, later ones overwriting (its properties are in `CollectedKeys` and `CollectedValue`) |
| NodeHelper.FailedIds | node_helper.js:89-92 | the account ids the failure handlers log, in settlement order |
| NodeHelper.Sent | node_helper.js:55-97 | what the handlers send: `[]` when no request is made; otherwise the collected map when settlement number `accountCount` succeeds, and nothing else (its properties are in `SentIffLastFulfilled`, `LastFailureSendsNothing` and `EmptyItemsSendNothing`) |
| NodeHelper.SentAsIntended | node_helper.js:55-97 | the corrected fan-in: `[]` when no request is made or there are no accounts; otherwise the collected map once all requests have settled (its properties are in `AsIntendedCompletesOnce` and `AsIntendedAgreesOnFulfilledLast`) |
| NodeHelper.SettlementsBounded | node_helper.js:60-93 | there are never more settlements than requests |
| NodeHelper.SentIffLastFulfilled | node_helper.js:81-93 | when requests were made, at most one notification is sent. It is sent exactly when all accounts have settled and the last settlement succeeded, and it carries the collected map |
| NodeHelper.ShortcutSendsEmptyArray | node_helper.js:95-97 | when the section is off or `items` is missing, no request is made and `[]` is sent |
| NodeHelper.CollectedKeys | node_helper.js:84 | the collected map has exactly the account numbers of the successful settlements as keys |
| NodeHelper.CollectedValue | node_helper.js:84 | with distinct account numbers, each successful account's entry is its reply body |
| NodeHelper.LastFailureSendsNothing | node_helper.js:89-92 | when the last settlement fails, nothing is ever sent |
| NodeHelper.EmptyItemsSendNothing | node_helper.js:55-60 | with the section on and `items: []`, nothing is ever sent |
| NodeHelper.HandleFanInAsIntended | node_helper.js:81-97 | the corrected handlers count, log, and send what the corrected specification says |
| NodeHelper.AsIntendedCompletesOnce | node_helper.js:81-97 | corrected: once every request has settled, exactly one notification is sent, keyed by the successful account numbers |
| NodeHelper.AsIntendedAgreesOnFulfilledLast | node_helper.js:81-93 | the correction sends what the source sends whenever the last settlement succeeds |

## Left out

- DOM construction is not modelled: elements, CSS classes, `innerHTML`, `minWidth` and the header element. Lines in document order stand in for them.
- Translations are not modelled (`this.translate`, `getTranslations`, `getScripts`, `getStyles`). A translated text is a fixed `Line` constructor.
- The salary banner's `join(', ')` is not modelled. The banner line carries the list of labels.
- Number formatting with `toFixed(numberOfDecimals)` is not modelled. A line carries the amount itself.
- IEEE floating point is not modelled. Balances and amounts are `real`.
- JsText.ParseInt / JsText.NumberKey / JsText.ParseIntOfDigits / JsText.ParseIntOfNegated / JsText.NumberKeyParsesBack / JsText.CanonicalKeyRoundTrip / WidgetProperties.FulfilledPaymentsCoverAccounts: the numbers `parseInt` returns are exact integers here. JavaScript numbers are IEEE doubles, so the program rounds integers above 2^53 and `String` prints exponent notation from 1e21 up. For an account number such as "12345678901234567890", `parseInt` gives 12345678901234567000. The widget then looks up the key "12345678901234567000" (MMM-Sbanken.js:182, 214, 245-246), while the helper stored the entry under "12345678901234567890" (node_helper.js:84). So the lookup misses, and at line 214 it throws. `NumberKeyParsesBack` is also false from 1e21 up, where `String` gives "1e+21" and `parseInt` reads 1. These lemmas, and the coverage `FulfilledPaymentsCoverAccounts` derives from them, hold in JavaScript only for account numbers below 2^53. Real account numbers have 11 digits.
- moment.js and `Date` are not modelled. Timestamps are integers in milliseconds. `Clock` gives the start of the month, the day and the time of day, and the projection instant is computed from them linearly.
  - `setDate` overflowing into the next month is covered.
  - Daylight-saving shifts and month lengths are not.
  - Today's start is midnight of `dayOfMonth`.
- HTTP is not modelled: the `request` library, URLs, headers and the OAuth token exchange. A reply is a value with a transport-error flag, a status code and an already parsed body.
- `JSON.parse` is not modelled.
- node_helper.js does not load as written: `{gg` at node_helper.js:13 is a syntax error, so `require` of the module throws and none of its handlers ever runs. Every `NodeHelper` member models node_helper.js with line 13 repaired (the stray `gg` removed).
- The GET_TOKEN and GET_BANK_ACCOUNTS handlers are modelled through `ReplyPayload` only.
- NodeHelper.ReplyPayload: on a transport error the source reads `response.statusCode` from an undefined `response` and throws. The model returns an error payload with the reply's status code instead.
- JsText.LowerChar / JsText.ToLowerCase / JsText.UpperChar: case mapping covers ASCII and Latin-1 only (with `ß` → `SS`, `ÿ` → `Ÿ` and `µ` → `Μ` for upper case); every other character maps to itself. JavaScript maps all of Unicode, so the cleaned label can differ: `Ł` (U+0141) stays upper-case; the Kelvin sign U+212A is not lowered to `k`, so " \u212AURS" keeps its letters where the program removes " kurs"; and `İ` (U+0130) lowers to two code units in JavaScript, whereas the model keeps the length.
- Timers are not modelled: `setInterval` in `scheduleUpdate`, the 20-second retry and `updateDom(1000)`. The retry and the redraw appear only as booleans in the results.
- Overlapping refresh cycles are not modelled, because they need timers and concurrent cycles.
- The `config` object that every request carries is not modelled. It is constant, and the model leaves it implicit.
- Widget.Render: the unguarded `this.bankAccounts.items` and `paymentInfo[accountNumber].items` at MMM-Sbanken.js:181 and 214 become the precondition `Renderable`. The model does not reproduce the exception those reads throw.
- NodeHelper.AccountCount: the unguarded `payload.bankAccounts.items` at node_helper.js:55 throws when `bankAccounts` is not an object. The model's payloads are always objects, so that throw is not reproduced.
- Widget.Widget.DisplayFutureAccountBalance: the in-place `account.balance -= …` (MMM-Sbanken.js:216) is modelled on values.
  - The loop builds the projected list and stores it back in `bankAccounts`.
  - Aliasing of the account objects by other holders is not captured.
  - The effect of updating in place across renderings is kept; see `Display.ProjectedTwice`.
- Widget.Widget.ProjectOneAccount: returns the updated account instead of mutating it, for the same reason.
- Display.SubtotalSum: the `if (!diffSum)` test on the first summed account (MMM-Sbanken.js:184-188) is written as plain addition; starting from 0 both give the same sum. `Widget.Widget.DisplayAndSumAccounts` keeps the test as the source has it.
- The five-piece cleanup of "NOK 123.45 Kurs: Foo*Bar" is described in prose only. Its character-level unfolding exceeds the verifier resource limit of 2,000,000 used for this project; `TransactionText.StripNoiseAppend` and the smaller examples cover the same behaviour.

## Findings

| source | as written | input that shows it | evidently intended | confidence | as-written member | corrected member |
|---|---|---|---|---|---|---|
| node_helper.js:81-93 | (with line 13 repaired) only the success handler compares `i` with `accountCount` and sends the map; the failure handler increments `i` and stops (the same at 128-140) | two accounts; the first reply succeeds and the second fails, so `i` reaches 2 in the failure handler, PAYMENTS is never sent and the widget never reaches TRANSACTIONS | send the collected map once every request has settled, whichever way the last one went | not executed | NodeHelper.LastFailureSendsNothing | NodeHelper.HandleFanInAsIntended |
| node_helper.js:55-60 | (with line 13 repaired) `payload.bankAccounts.items` is `[]`, which is truthy, so the `[]` shortcut at 95-97 is skipped and the empty `forEach` sends nothing (the same at 103-106) | `bankAccounts = {items: []}` with `showFutureAccountBalance` on | send `[]` at once, as when the section is off | not executed | NodeHelper.EmptyItemsSendNothing | NodeHelper.HandleFanInAsIntended |
