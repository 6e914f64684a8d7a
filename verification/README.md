# Money handling of the Actual Budget REST wrapper, in Dafny

This project models the money-handling core of a REST API that wraps the
Actual Budget client. Amounts are integer cents, and that core does four
things with them:

- It turns cents into display strings such as `-P1,234.56`. There are three
  formatters:
  - `formatSingleAmount` and `formatTransactionAmount` keep the sign.
  - `formatBillAmount` drops it.
- It decorates any JSON response with `<field>_display` members
  (`addDisplayFields`).
- It checks that a request's `amount` (cents) agrees with its `amount_major`
  (major units), and strips `amount_major` before forwarding
  (`validateAmountFields`, `stripAmountMajor`).
- It computes the AI-agent reports after their data has been fetched:
  - the budget check: spending and debt categories and their totals;
  - the bills due: paid, upcoming and past-due schedules, sorted and totalled;
  - the budget alert attached to a new expense;
  - the monthly spending summary: totals, daily average, top categories and
    payees, and the largest transactions.

The small helpers beside them are modelled too: `paginate`,
`validatePaginationParameters`, `parseNumericBoolean` and `isEmpty`.

Where the source loops and updates variables, the model is a `method` with
a loop. Each such method is proved equal to a declarative function:
- `AddDisplayFields` equals `Annotate`.
- `SplitCategories` equals `SpendingOf` and `DebtOf`.
- `CollectPaid` equals `PaidMap`.
- `ClassifyBills` equals `Listed`.
- `FindAlert` equals `AlertIn`.
- `GatherTransactions` equals `Gathered`.
- `Accumulate` equals `Tallies`.

The properties are then proved about those functions.

The model's representations:
- JSON values are the `Json` datatype, with object members in insertion
  order.
- Cents are `int`.
- `amount_major` is an exact `real`.
- `Math.round` is `Round(x) = floor(x + 1/2)`. Like the code, this rounds
  halves towards positive infinity: -2.5 becomes -2, not -3.

Files:
- `wrappers.dfy`: Option and Result.
- `text.dfy`: digits, `toLowerCase` and `includes`.
- `json.dfy`: JSON values and member lookup.
- `aggregate.dfy`: `reduce` sums, `filter`, sorting and top-N.
- `money_format.dfy`: `formatSingleAmount`, with a parser proving it is a
  round trip.
- `display_fields.dfy` and `display_facts.dfy`: `formatAmountDisplay` and
  `addDisplayFields`.
- `amount_validation.dfy`: `validateAmountFields` and `stripAmountMajor`.
- `pagination.dfy`: `paginate` and `validatePaginationParameters`.
- `value_helpers.dfy`: `isEmpty` and `parseNumericBoolean`.
- `bill_format.dfy`: the amount helpers of `ai.js`.
- `budget_check.dfy`, `bills_due.dfy`, `budget_alert.dfy` and
  `spending_summary.dfy`: the four reports.

## Model

| member | source | states |
|---|---|---|
| MoneyFormat.Abs | src/utils/utils.js:112 | `Math.abs` returns the argument or its negation, never below zero |
| MoneyFormat.GroupThousandsLayout | src/utils/utils.js:114 | the digit groups the comma regex produces are well formed (1-3 leading digits, then groups of three), and removing the commas gives back the digits |
| MoneyFormat.SeparatorsOfFixed | src/utils/utils.js:113-114 | on a `toFixed(2)` string, the regex puts commas only into the integer part and never touches the two decimals |
| MoneyFormat.FormatBodyLayout | src/utils/utils.js:112-114 | the unsigned body has a dot three places from the end, the two decimals are `n % 100`, and the grouped integer part reads `n / 100` with no leading zero |
| MoneyFormat.FormatRoundTrip | src/utils/utils.js:110-116 | reading the formatted string back gives the cents: `ParseAmount(FormatSingleAmount(c, sym), sym) == Some(c)` for every integer `c`, provided the symbol does not start with '-' |
| MoneyFormat.FormatInjective | src/utils/utils.js:110-116 | two different cent amounts never format to the same string |
| MoneyFormat.FormatSign | src/utils/utils.js:111-115 | the text starts with '-' exactly when the amount is negative |
| MoneyFormat.FormatZero | src/utils/utils.js:110-116 | zero formats as the symbol followed by "0.00", with no minus sign |
| MoneyFormat.FormatRangeParts | src/utils/utils.js:128-131 | a range's text is the first amount, " - ", then the second, and each part reads back as its own endpoint |
| DisplayFields.MoneyFieldNotDisplayKey | src/utils/utils.js:74-102 | no money field ends in `_display`, so a generated display key is never itself a money field |
| DisplayFields.BaseOfDisplayKey | src/utils/utils.js:164 | appending `_display` and stripping it again gives back the key |
| DisplayFields.FormatAmountDisplay | src/utils/utils.js:124-137 | gives a string exactly for numbers and for objects whose `num1` and `num2` are both defined, whatever their values: a number gets its signed formatted amount; a range gets "a - b", each end coerced to a number first (null 0, booleans 0 and 1, anything unreadable "NaN"), and with number ends it is the formatted range; everything else gets null |
| DisplayFields.NumberOfString | src/utils/utils.js:111-112 | a range end that is a string written from an integer coerces back to that integer, as `< 0` and `Math.abs` read it |
| DisplayFields.CoercedRangeEnds | src/utils/utils.js:128-131 | `{num1: null, num2: 5}` shows as zero, then five cents; a non-numeric string end shows as the symbol followed by "NaN", and `true` as one cent |
| DisplayFieldsLoop.AddDisplayFields | src/utils/utils.js:145-179 | the recursive loop over the key snapshot, with `result[k_display] = …` and `result[k] = addDisplayFields(value)`, equals the declarative `Annotate` |
| DisplayFieldsLoop.StageDone | src/utils/utils.js:155-174 | after every key has been visited, the object under construction is exactly `Annotate` of the input |
| DisplayFieldsFacts.AnnotateShape | src/utils/utils.js:146-178 | arrays are mapped element by element, objects stay objects, and primitives are returned unchanged |
| DisplayFieldsFacts.AnnotateKeys | src/utils/utils.js:155-171 | the original keys keep their order, and every added key is `<money field>_display` for a money field of the object that was not already a key |
| DisplayFieldsFacts.LookupAnnotated | src/utils/utils.js:155-171 | every key that is not a display key keeps its value, recursively annotated |
| DisplayFieldsFacts.AnnotateKeepsValue | src/utils/utils.js:155-171 | a primitive member that is not a display key is left exactly as it was |
| DisplayFieldsFacts.AnnotateDisplays | src/utils/utils.js:161-165 | each money field with a displayable value ends up with `<field>_display` holding its formatted amount, whether that key was already present or is appended |
| DisplayFieldsFacts.DisplayForAnnotated | src/utils/utils.js:161-165 | the display value of every key is the same before and after annotation |
| DisplayFieldsFacts.AnnotatedDistinct | src/utils/utils.js:155-164 | annotation never creates a duplicate key |
| DisplayFieldsFacts.AnnotateWellFormed | src/utils/utils.js:145-179 | a tree with distinct keys stays one |
| DisplayFieldsFacts.AnnotatedAppendsNothing | src/utils/utils.js:161-165 | a second pass has no new display keys left to append |
| DisplayFieldsFacts.ToNumberAnnotate | src/utils/utils.js:145-179 | annotating a value never changes the number it coerces to, so a range end keeps its display |
| DisplayFieldsFacts.FormatAmountDisplayAnnotate | src/utils/utils.js:124-179 | annotating a value does not change what `formatAmountDisplay` shows for it |
| DisplayFieldsFacts.AnnotateIdempotent | src/utils/utils.js:145-179 | `addDisplayFields(addDisplayFields(x)) == addDisplayFields(x)` for every tree with distinct keys |
| AmountValidation.Round | src/utils/utils.js:207-220 | `Math.round` gives the integer within one half below and strictly below one half above its argument |
| AmountValidation.RoundCharacterization | src/utils/utils.js:220 | `Round(x) == c` exactly when `c - 1/2 <= x < c + 1/2` |
| AmountValidation.Message | src/utils/utils.js:194-225 | each error message starts with the field name |
| AmountValidation.ValidateAmountFields | src/utils/utils.js:187-227 | it fails with the "must include both" error exactly when one field is given without the other, and with the "must be a range object" error exactly when `amount` is a range but `amount_major` is not |
| AmountValidation.ValidateScalar | src/utils/utils.js:219-226 | a scalar pair passes exactly when `amount_major * 100` lies in `[amount - 1/2, amount + 1/2)` |
| AmountValidation.ValidateCanonical | src/utils/utils.js:219-226 | `amount_major = amount / 100` always passes |
| AmountValidation.ValidateRange | src/utils/utils.js:201-216 | a range pair passes exactly when both endpoints exist and each equals the rounded major endpoint times 100 |
| AmountValidation.ValidatePassBound | src/utils/utils.js:187-227 | whenever validation passes and `amount` is given, each cent value is within half a cent of its major value times 100 |
| AmountValidation.Without | src/utils/utils.js:237 | the rest object holds exactly the members whose key is not `amount_major` |
| AmountValidation.LookupWithout | src/utils/utils.js:237 | every other key reads the same as before, and `amount_major` reads as absent |
| AmountValidation.IndexMembersKeys | src/utils/utils.js:237 | spreading an array gives members whose keys (the indices in decimal) are all distinct and never `amount_major` |
| AmountValidation.StripObject | src/utils/utils.js:234-238 | for an object: `amount_major` is gone and every other key is unchanged |
| AmountValidation.StripArray | src/utils/utils.js:235-238 | an array becomes an index-keyed object that holds every element |
| AmountValidation.StripIdempotent | src/utils/utils.js:234-239 | stripping twice is the same as stripping once |
| AmountValidation.WithoutAbsent | src/utils/utils.js:237 | an object without `amount_major` comes back unchanged |
| Pagination.NumPagesBounds | src/utils/utils.js:50 | `ceil(n / limit)` is zero exactly for an empty array; otherwise its last page starts inside the array |
| Pagination.Paginate | src/utils/utils.js:44-62 | it fails exactly when `limit < 1`, `page < 1` or `page > numOfPages`, and a page it returns holds between 1 and `limit` items |
| Pagination.PaginateErrors | src/utils/utils.js:47-54 | the limit error is checked first, and the page error names `numOfPages` |
| Pagination.PageItems | src/utils/utils.js:55-61 | a page is the contiguous slice starting at `(page - 1) * limit` |
| Pagination.PageLength | src/utils/utils.js:57-60 | every page but the last is full, and the last holds the remainder |
| Pagination.PaginateEmpty | src/utils/utils.js:50-54 | an empty array has no valid page |
| Pagination.PagesPartition | src/utils/utils.js:44-62 | pages 1 to `numOfPages`, concatenated, give back the whole array |
| Pagination.ValidatePaginationParameters | src/utils/utils.js:64-71 | it passes exactly when both parameters are given, the limit error comes first, then the page error |
| ValueHelpers.IsEmpty | src/utils/utils.js:17-28 | the loop returns true exactly for falsy values and values without own enumerable properties |
| ValueHelpers.EmptyCases | src/utils/utils.js:17-28 | a value is empty exactly when it is not a non-empty object, a non-empty array or a non-empty string (numbers and booleans have no own properties) |
| ValueHelpers.ParseNumericBoolean | src/utils/utils.js:40-42 | 0 becomes false, 1 becomes true, and every other value passes through unchanged |
| ValueHelpers.ParseNumericBooleanFacts | src/utils/utils.js:40-42 | truthiness is preserved, and applying it twice is the same as applying it once |
| ValueHelpers.ParseNumericBooleanRoundTrip | src/utils/utils.js:40-42 | 1 and 0 read as true and false, and booleans stay as they are |
| Text.Lower | src/v1/routes/ai.js:432-437 | `toLowerCase` keeps the length, leaves no capital letter, turns each capital into its small letter and keeps every other character |
| Text.LowerIdempotent | src/v1/routes/ai.js:432-437 | lower-casing an already lower-cased string changes nothing |
| Text.ContainsWitness | src/v1/routes/ai.js:433-435 | `includes` holds exactly when the substring occurs at some position |
| BillFormat.BillAmountUnsigned | src/v1/routes/ai.js:1385-1390 | a bill amount is the formatted absolute value, the same for `c` and `-c`, never starts with '-', and reads back as `abs(c)` |
| BillFormat.BillAmountNaN | src/v1/routes/ai.js:1385-1390 | a value that is not a number is shown as the symbol followed by "NaN" |
| BillFormat.FormatTransactionAmount | src/v1/routes/ai.js:1393-1400 | it is null exactly for null or undefined cents |
| BillFormat.TransactionAmountShared | src/v1/routes/ai.js:1393-1400 | on a number it is `formatSingleAmount`, so it reads back as the signed cents |
| BillFormat.AmountOp | src/v1/routes/ai.js:1404 | an absent or empty `amountOp` defaults to "is" |
| BillFormat.TransformAmount | src/v1/routes/ai.js:1403-1430 | the result is a range exactly for "isbetween" with an object amount, with low = `num1` and high = `num2`; it is approximate exactly for "isapprox"; otherwise it keeps the amount |
| BillFormat.TransformDefaultOp | src/v1/routes/ai.js:1404-1428 | a missing `amountOp` behaves like "is" and gives a fixed amount |
| BillFormat.RangeDisplay | src/v1/routes/ai.js:1407-1414 | the range display is "a to b", and each side reads back as the absolute endpoint |
| BillFormat.ScalarDisplay | src/v1/routes/ai.js:1415-1428 | an approximate display is '~' followed by an amount that reads back as `abs(c)`; a fixed display reads back as `abs(c)` |
| BillFormat.GetAmountValue | src/v1/routes/ai.js:1373-1382 | a range bill counts with its lower bound |
| BillFormat.AmountValueOfTransform | src/v1/routes/ai.js:1373-1430 | the value used in totals is the scalar cents, or `num1` for a range, or 0 when the amount is missing or is an object that did not become a range |
| BudgetCheck.SplitCategories | src/v1/routes/ai.js:396-426 | the nested loops produce exactly `SpendingOf(groups)` and `DebtOf(groups)` |
| BudgetCheck.SplitGroup | src/v1/routes/ai.js:403-425 | the inner loop appends the visible categories of one group to the debt list or to the spending list |
| BudgetCheck.SpendingMembers | src/v1/routes/ai.js:396-426 | a spending entry is listed exactly when it comes from a visible category of a non-income group whose name does not contain "debt" |
| BudgetCheck.DebtMembers | src/v1/routes/ai.js:396-426 | a debt entry is listed exactly when it comes from a visible category of a non-income group whose name contains "debt" (case-insensitive) |
| BudgetCheck.SplitCounts | src/v1/routes/ai.js:396-426 | spending plus debt entries are as many as the visible categories of the non-income groups |
| BudgetCheck.FilterSpending | src/v1/routes/ai.js:429-435 | an entry is kept exactly when no filter is given, or the id equals the filter, or the lowercase name contains the lowercase filter |
| BudgetCheck.FilterDebt | src/v1/routes/ai.js:430-438 | the same filter, applied to debt entries |
| BudgetCheck.MatchesByName | src/v1/routes/ai.js:432-437 | a case-insensitive occurrence of the filter in the name is a match |
| BudgetCheck.CheckBudget | src/v1/routes/ai.js:396-448 | the report is the filtered split, and its sums are taken over the filtered lists |
| BudgetCheck.SpendingTotalsSplit | src/v1/routes/ai.js:441-444 | each spending total is the total of the kept entries plus the total of the dropped ones |
| BillsDue.CollectPaid | src/v1/routes/ai.js:556-569 | the loops over open accounts build exactly `PaidMap`, the first paying transaction of each schedule |
| BillsDue.CollectFromAccount | src/v1/routes/ai.js:560-568 | the inner loop extends the map with one account's transactions |
| BillsDue.PaidMapFirst | src/v1/routes/ai.js:561-567 | a schedule is paid exactly when some transaction in the target months names it, and its entry is the first such transaction |
| BillsDue.Placement | src/v1/routes/ai.js:575-616 | completed schedules are skipped; a paid schedule goes to paid; an unpaid one is skipped by the month filter, or goes to upcoming when `daysDiff >= 0` and to past due otherwise |
| BillsDue.BillName | src/v1/routes/ai.js:585 | the bill's name is never empty: schedule name, then payee name, then "Unnamed" |
| BillsDue.BillFor | src/v1/routes/ai.js:583-615 | the bill keeps the schedule's id, its status matches its list, and a past-due bill is overdue by at least a day |
| BillsDue.ClassifyBills | src/v1/routes/ai.js:575-617 | the loop builds exactly the three `Listed` sequences |
| BillsDue.ListedMembers | src/v1/routes/ai.js:575-617 | a bill is in a list exactly when some schedule is placed there and yields that bill |
| BillsDue.ClassifyCounts | src/v1/routes/ai.js:575-617 | upcoming + past due + paid + skipped = the number of schedules |
| BillsDue.BillsDueReport | src/v1/routes/ai.js:556-644 | the three lists are sorted, their counts match, and the totals are sums of `getAmountValue` and `paid_amount` with their displays |
| BillsDue.SortedUpcoming | src/v1/routes/ai.js:620 | upcoming bills come nearest first |
| BillsDue.SortedPastDue | src/v1/routes/ai.js:621 | past-due bills come most overdue first |
| BillsDue.SortedPaid | src/v1/routes/ai.js:622 | paid bills come most recent first |
| Aggregate.SortBy | src/v1/routes/ai.js:619-622 | the sort returns a permutation of its input, ordered by the key |
| Aggregate.SumOfPermutation | src/v1/routes/ai.js:625-627 | summing a permutation gives the same total, so totals taken after sorting are the totals of the lists |
| Aggregate.TakeSmallest | src/v1/routes/ai.js:1327-1329 | sort-then-slice keeps `min(n, length)` elements, sorted and drawn from the input |
| Aggregate.TakeSmallestLeftOut | src/v1/routes/ai.js:1327-1329 | every element left out has a key no smaller than any element kept |
| BudgetAlert.PercentUsed | src/v1/routes/ai.js:943-947 | the percentage used is never negative |
| BudgetAlert.StatusOf | src/v1/routes/ai.js:949-986 | over budget at 100% or more, critical at 90-99%, warning at 80-89%, on track below 80% |
| BudgetAlert.AlertFor | src/v1/routes/ai.js:942-987 | there is an alert exactly when something is budgeted; its status comes from the rounded percentage, and it carries the balance |
| BudgetAlert.FirstMatch | src/v1/routes/ai.js:940-988 | the inner loop stops at the first category with the id |
| BudgetAlert.FindAlert | src/v1/routes/ai.js:935-990 | the nested loops with `continue` and `break` compute `AlertIn` |
| BudgetAlert.BudgetAlertFor | src/v1/routes/ai.js:928-929 | no alert without a category id or for a non-negative amount; otherwise the search result |
| BudgetAlert.AlertSource | src/v1/routes/ai.js:935-990 | an alert exists exactly when some non-income, non-debt group's first category with that id has a positive budget, and it is that category's alert |
| BudgetAlert.OverBudgetBounds | src/v1/routes/ai.js:947-949 | spending the whole budget is always over budget, and over budget means at least 99.5% is spent |
| BudgetAlert.OnTrackBound | src/v1/routes/ai.js:947-977 | spending below 79.5% is always on track |
| BudgetAlert.OverBudgetMessage | src/v1/routes/ai.js:950-955 | the over-budget message shows minus the absolute balance, and it reads back as that number |
| SpendingSummary.PeriodOf | src/v1/routes/ai.js:1231-1241 | days elapsed + days remaining = days in the month; a past month has 0 days remaining, a future one 0 elapsed |
| SpendingSummary.FromEntries | src/v1/routes/ai.js:1249-1251 | every id is a key, and each key maps to the name of the last pair with that id |
| SpendingSummary.FromEntriesLastWins | src/v1/routes/ai.js:1249 | for `[a→x, a→y, b→z]` the id `a` maps to `y`: a later pair replaces an earlier one |
| SpendingSummary.Lookup | src/v1/routes/ai.js:1283 | `map[id] \|\| …` takes the fallback exactly when the id is missing or its name is empty |
| SpendingSummary.CategoryName | src/v1/routes/ai.js:1283 | a category name is never empty: a known name, or "Uncategorized" |
| SpendingSummary.PayeeName | src/v1/routes/ai.js:1306 | a payee name is never empty: a known name, then the imported payee, then "Unknown" |
| SpendingSummary.GatherTransactions | src/v1/routes/ai.js:1255-1263 | the loop concatenates the open accounts' transactions, each tagged with its account id |
| SpendingSummary.GatheredMembers | src/v1/routes/ai.js:1258-1263 | a gathered transaction is exactly a transaction of one of the accounts, tagged with that account's id |
| SpendingSummary.ExpensesOf | src/v1/routes/ai.js:1266-1271 | the expenses are exactly the transactions that are not deleted, not children, not transfers, and negative |
| SpendingSummary.TotalsOf | src/v1/routes/ai.js:1270-1278 | total spent is the sum of the expenses' magnitudes, total income is the sum of the positive amounts (never negative), and the net flow is the sum of all counted amounts |
| SpendingSummary.MagnitudeSum | src/v1/routes/ai.js:1275 | over expenses, `Math.abs` of the sum equals the sum of the `Math.abs` values |
| SpendingSummary.IncomeAndExpenses | src/v1/routes/ai.js:1271-1277 | the sum of all amounts is income plus the signed expenses, so `netFlow = totalIncome - totalSpent` |
| SpendingSummary.DailyAverage | src/v1/routes/ai.js:1278 | the average is 0 when no day has elapsed, and never negative |
| SpendingSummary.DailyAverageNearest | src/v1/routes/ai.js:1278 | the average is the integer nearest to spent / days: `(r - 1/2)·d <= spent < (r + 1/2)·d` |
| SpendingSummary.Accumulate | src/v1/routes/ai.js:1281-1312 | the tally loop computes the declarative `Tallies` |
| SpendingSummary.TallyOf | src/v1/routes/ai.js:1281-1312 | a name has a tally exactly when some expense maps to it; its spent is the sum of those expenses' magnitudes, and its count is their number |
| SpendingSummary.TalliesTotal | src/v1/routes/ai.js:1281-1312 | the tallies' spent amounts add up to the total spent |
| SpendingSummary.PercentBounds | src/v1/routes/ai.js:1297-1320 | a share is between 0 and 100, and it is 100 when one name holds all the spending |
| SpendingSummary.Entries | src/v1/routes/ai.js:1291-1299 | one entry per tallied name, in insertion order, carrying its spent, count and percentage |
| SpendingSummary.EntryFacts | src/v1/routes/ai.js:1281-1299 | an entry's spent is the sum of its own expenses, its count is their positive number, and its percentage is between 0 and 100 |
| SpendingSummary.Top | src/v1/routes/ai.js:1291-1301 | at most 10 entries, in descending order of spent, all taken from the input, and every entry left out has spent no more than any entry kept |
| SpendingSummary.Largest | src/v1/routes/ai.js:1327-1339 | at most 10 transactions, in ascending order of amount (most negative first) |
| SpendingSummary.LargestAreExpenses | src/v1/routes/ai.js:1327-1339 | each listed item describes one of the expenses |
| SpendingSummary.LargestLeaveOutSmaller | src/v1/routes/ai.js:1327-1329 | an expense more negative than a listed one is itself listed |
| SpendingSummary.Summarize | src/v1/routes/ai.js:1231-1362 | the whole summary, built from lookup maps made by `FromEntries` over the fetched pairs: the period is `PeriodOf` of the clock inputs; the totals are `TotalsOf` the counted transactions, so spent, income, net flow, count and daily average are the sums and rounding stated there; the top categories and payees are `Top` of the `Entries` of the expenses' `Tallies` by category and payee name; the largest are `Largest` of the expenses; each list holds at most 10 items in its sort order |

## Left out

- I/O and the framework are not modelled: Express routing, `res.locals.budget` calls, `async`/`await`, `res.json`, `next(err)`, `try`/`catch` and `console.error`. The data the handlers fetch are inputs to the model.
- The file-system helpers `createDirIfDoesNotExist`, `listSubDirectories` and `getFileContent` are left out; they only perform I/O.
- Dates and clocks are inputs, not computed:
  - `currentLocalDate`, `formatDateToISOString`, `getCurrentMonth`, `formatDate` and all `Date` arithmetic are left out.
  - A bills-due transaction carries `day`, the day number `new Date(date)` would order it by, as a separate input; nothing ties it to its `date` string.
  - A schedule's `daysDiff`, the month's last day, today's day of the month, whether the month is the current one, and whether it is over are all inputs.
  - Splitting the `month` parameter on commas and computing the fetch date range are not modelled either.
- Numbers are exact:
  - Cents are unbounded integers and `amount_major` is an exact real. IEEE-754 rounding of `amount_major * 100`, `toFixed` at 1e21 and above, and non-integer cent values are not modelled.
  - `Math.round` rounds halves up, as the code does: -2.5 becomes -2.
- BudgetAlert.PercentUsed and SpendingSummary.Percent: `Math.round((a / b) * 100)` is taken on the exact quotient. JavaScript divides and multiplies in doubles first, which can land just below a half: 23 of 40 gives 57 in JavaScript but 58 here, and 29 of 200 gives 14 there but 15 here.
- DisplayFields.FormatAmountDisplay: a string range end is read as a number only when it is empty or an optional sign followed by decimal digits. Strings that `Number` reads otherwise are shown as "NaN" here, although JavaScript formats them as numbers. These include surrounding whitespace, a decimal point, an exponent, "Infinity" and hexadecimal, octal or binary prefixes. Non-integer ends are not modelled either.
- BillFormat.FormatBillAmount: type confusion is collapsed into one `None`, shown as "NaN". An `amount` that is a range with missing or non-numeric ends, a `null` amount, and other non-number amounts all fall into this case.
- AmountValidation.Message: only the fixed text of each mismatch error is modelled; the numbers that JavaScript interpolates into it are not.
- AmountValidation.ValidateAmountFields: JavaScript values that are neither numbers nor objects (strings, booleans) in `amount` or `amount_major` are not modelled.
- Text.Lower: `toLowerCase` is modelled on ASCII letters only; full Unicode case mapping is not modelled.
- Sorting happens on sequences, not in place. The JavaScript sort also reorders `expenses` itself; this is harmless because after the sort only its length is read (for `transaction_count`), and sorting does not change it.
- SpendingSummary.Accumulate: name keys behave like a map. Names that clash with `Object.prototype` members (such as "constructor") are not modelled. Neither is `Object.entries` listing integer-like keys before the others.
- SpendingSummary.Top and BillsDue.BillsDueReport: ties between equal keys may come out in any order. The model proves ordering, permutation and the left-out bound, not stability.
- Missing ids and names are the empty string; `undefined` versus `null` in a lookup result is not distinguished.
- Pagination.Paginate: `page` and `limit` are integers; non-integer or non-numeric query values are not modelled.
