# Cash-flow and bank-reconciliation API: a Dafny model

This project models the core of a small accounting API built on one ledger table, `AccountingLedgerEntry`.

**The ledger.** Every row records a `date`, an `account`, a `companyid` (never NULL, 1 by default), nullable `debit` and `credit` amounts, and some nullable context columns: `party`, `note`, `bankaccount`, `reference` and `reconciled`. Two helper columns cache a classification of the row:

- `cashflow_category` is Operating, Investing or Financing.
- `is_cash_transaction` is a flag.

**`initDb`** (src/database.ts:14-88) backfills the helper columns of rows that still hold the column defaults, then seeds nine sample rows into an empty table.

**The two reports.**

- `/cashflow` groups one company's rows in a date range by activity type and sums inflows, outflows and net per category. It also reports the net change and the closing balance.
- `/reconciliation` compares the ledger balance of one bank account with a fixed bank statement balance. It lists the unreconciled rows as reconciling items.

**Modules:**

- `Common` (common.dfy) holds the shared pieces:
  - nullable columns and optional query parameters (`Option`);
  - SQL three-valued logic (`Tri`, with `Or`, `And` and `Equals` on nullable columns);
  - the handlers' `Response` (200 body, 400, 500) and the JavaScript falsiness test on parameters.
- `Text` (text.dfy) holds the string tests:
  - JavaScript `String.includes` (`Contains`);
  - SQL `LIKE` with `%` and `_`;
  - `ILIKE` as `LIKE` after ASCII lower-casing.
- `Ledger` (ledger.dfy) models src/database.ts:
  - the row;
  - `SUM(debit - credit)` and `WHERE` over a table;
  - the classification rule;
  - the guarded backfill `UPDATE`;
  - the seed rows;
  - the class `LedgerTable`, whose methods `Backfill`, `SeedIfEmpty` and `InitDb` change its `rows` in place.
- `CashFlow` (cashflow.dfy) models src/routes/cashflow.ts:
  - the inline `CASE`;
  - the grouped `SUM`s;
  - the zero-initialised response object and the `forEach` that overwrites its entries, as a method with a loop over a map;
  - net change and closing balance;
  - the handler.
- `Reconciliation` (reconciliation.dfy) models src/routes/reconciliation.ts:
  - ledger balance and the constant bank balance;
  - the `map` to reconciling items and the `reduce` that sums them;
  - the handler, including the 500 raised by a NULL note.

**Conventions:**

- Amounts are integers in minor units.
- A date is the integer yyyymmdd, so integer order is calendar order.
- A query parameter that the handler's falsiness test rejects, because it is absent or the empty string, is `None` when it is a number or a date. A text parameter keeps the empty string, and `Common.Missing` treats it as absent.
- A NULL `debit` or `credit` makes `debit - credit` NULL. `SUM` skips such a row, and `Number(null)` reads it as 0, so everywhere such a row contributes 0 (`Ledger.NetValue`).
- `WHERE` and `CASE WHEN` select a row only when their condition is true, never when it is unknown.
- The grouped query has no `ORDER BY`, so the order of its result rows is the parameter `order` of `CashFlow.HandleCashFlow`.
- The grouped query reads the `cash_flows` subquery. The model gives that subquery as `CashFlow.CashFlows`: each row's activity type and `net_cash`.

**What the code does in some notable cases:**

- `/cashflow` applies no `is_cash_transaction` filter to the grouped query or to the closing balance. It recomputes the category from `account` and `note` instead of reading `cashflow_category`, which `CashFlow.ReportIgnoresCachedColumns` states.
- Under the classification rule the three seeded `Cash` receipts fall as follows:
  - The receipt with note "Capital Contribution" is Financing.
  - "Payment received" and "Loan deposit" are Investing.
  - So the seeded company's January 2025 report is operating {0, 14000, -14000}, investing {15000, 0, 15000}, financing {10000, 7000, 3000}, net change 4000 and closing balance 4000 (`CashFlow.SeedJanuaryReport`).
- The seeded Bank Charges row has the note "Monthly service charge", which does not contain "Bank charge". It is therefore typed "outstanding cheque", not "bank charge not recorded" (`Reconciliation.SeedItemKinds`).
- The seed stores `cashflow_category` values for the two cash receipts that the rule would not derive (`Ledger.SeedCacheDisagreesWithRule`). The backfill never corrects them, because their `is_cash_transaction` is already TRUE.
- The closing balance has one scope: all of the company's rows dated up to `toDate`, with no lower date bound and no cash-transaction filter (`CashFlow.ClosingIsOpeningPlusNetChange`).

## Model

| member | source | states |
|---|---|---|
| Common.Or | src/database.ts:53 | SQL `OR`: true when either side is true, false only when both are false, otherwise unknown |
| Common.And | src/database.ts:62 | SQL `AND`: true only when both sides are true, false when either is false, otherwise unknown |
| Common.Equals | src/database.ts:62 | `column = value` is true exactly when the column holds the value, and unknown exactly when the column is NULL |
| Common.Missing | src/routes/reconciliation.ts:20 | the handler's `!param` test on a text parameter: missing when absent or empty; used by `Reconciliation.HandleReconciliation`'s 400 contract |
| Text.Lower | src/database.ts:53 | lower-casing keeps the length and maps each character by itself |
| Text.Contains | src/routes/reconciliation.ts:47 | `String.includes`, case-sensitive; stated by `Text.LikeInfix`, `Text.ContainsNeedsRoom` and `Reconciliation.BankChargeTestIsCaseSensitive` |
| Text.Like | src/database.ts:53 | SQL `LIKE` with `%` and `_`; stated by `Text.LikeAnything`, `Text.LikeLiteralHead` and `Text.LikeInfix` |
| Text.ILike | src/database.ts:53 | `LIKE` after lower-casing both sides; stated by `Text.ILikeInfix` |
| Text.LikeAnything | src/database.ts:53 | the pattern `%` matches every string |
| Text.LikeLiteralHead | src/database.ts:53 | a wildcard-free head of a `LIKE` pattern must equal the head of the string, and the rest of the pattern matches the rest of the string |
| Text.LikeInfix | src/database.ts:53 | `s LIKE '%q%'` for a wildcard-free `q` holds exactly when `q` occurs in `s` |
| Text.LowerAppend | src/database.ts:53 | lower-casing distributes over concatenation |
| Text.ILikeInfix | src/database.ts:53 | `s ILIKE '%q%'` holds exactly when lower-case `q` occurs in lower-case `s`, i.e. the test ignores letter case |
| Text.ContainsNeedsRoom | src/routes/reconciliation.ts:47 | a string shorter than the text sought does not contain it |
| Text.ContainsNeedsFirst | src/routes/reconciliation.ts:47 | a string without the first character of the text sought does not contain it |
| Ledger.CategoryName | src/database.ts:30 | the text stored in `cashflow_category` for each category; used by `Ledger.BackfillEffect` |
| Ledger.NetCash | src/routes/cashflow.ts:41 | `debit - credit` is NULL exactly when one side is NULL, and otherwise adds back to the debit with the credit |
| Ledger.NetValue | src/routes/reconciliation.ts:26 | what a row adds to `SUM(debit - credit)`: its net counted by `Ledger.Counted`, so 0 when the net is NULL; stated by `Ledger.NetCash` and used by `Reconciliation.ToItems` |
| Ledger.Total | src/routes/reconciliation.ts:26 | `SUM(debit - credit)` over some rows, 0 over none; stated by `Ledger.TotalSplit`, `Ledger.TotalWhereHead` and `CashFlow.NetsPartitionTotal` |
| Ledger.Where | src/routes/cashflow.ts:43-44 | a `WHERE` keeps each row as many times as the table has it when the condition holds and never otherwise, and never grows the table |
| Ledger.TotalSplit | src/routes/reconciliation.ts:26-28 | splitting a condition into two disjoint cases splits `SUM(debit - credit)` into the two partial sums |
| Ledger.TotalWhereHead | src/routes/reconciliation.ts:26-28 | proof step: the filtered sum takes the first row's net when it is kept and adds the filtered sum of the rest |
| Ledger.Facts | src/database.ts:17-31 | a row without its two helper columns; used by `Ledger.SameFacts` |
| Ledger.SameFacts | src/database.ts:30-31 | two tables that differ at most in the helper columns; the hypothesis of `CashFlow.ReportIgnoresCachedColumns` |
| Ledger.SameFactsTail | src/database.ts:30-31 | proof step: two tables that differ only in the helper columns still do so after dropping their first rows |
| Ledger.SameFactsCons | src/database.ts:30-31 | proof step: prefixing rows that differ only in the helper columns keeps two such tables alike |
| Ledger.WhereKeepsAll | src/routes/cashflow.ts:43-44 | a `WHERE` whose condition holds on every row returns the whole table |
| Ledger.WhereHead | src/routes/cashflow.ts:43-44 | proof step: a `WHERE` over a non-empty table keeps or drops the first row, then filters the rest |
| Ledger.WhereSameFacts | src/routes/cashflow.ts:43-44 | a condition that judges corresponding rows alike keeps two tables that differ only in the helper columns alike |
| Ledger.TotalSameFacts | src/routes/cashflow.ts:79-82 | the sum of `debit - credit` does not depend on the helper columns |
| Ledger.NoteILike | src/database.ts:53 | `note ILIKE pattern`, unknown on a NULL note; stated by `Ledger.FinancingTestRule` |
| Ledger.FinancingTest | src/database.ts:53 | the Financing condition; stated by `Ledger.FinancingTestRule` |
| Ledger.Classify | src/database.ts:50-56 | the first-match `cashflow_category` `CASE`; stated by `Ledger.ClassifyRule` |
| Ledger.IsCash | src/database.ts:57-61 | the `is_cash_transaction` `CASE`: TRUE exactly when the account is Cash or `bankaccount` is not NULL; stated by `Ledger.BackfillEffect` |
| Ledger.MentionsCapitalContribution | src/database.ts:53 | the note holds the phrase in any letter case; the pattern-free reading used by `Ledger.ClassifyRule` |
| Ledger.ClassifyRule | src/database.ts:50-56 | every row gets exactly one category. Operating exactly for the five listed accounts, even if the note mentions a capital contribution. Financing exactly for other rows whose account is Bank Loan or whose note contains "capital contribution" in any letter case. Investing for all the rest |
| Ledger.FinancingTestRule | src/database.ts:53 | the Financing condition is true exactly when the account is Bank Loan or the note contains the phrase, ignoring case |
| Ledger.NullNoteClassify | src/database.ts:53-55 | with a NULL note a row is Financing only through the Bank Loan account and otherwise, if not listed as Operating, Investing |
| Ledger.PhraseNoteIsFinancing | src/database.ts:53-54 | an unlisted row whose note is "Capital Contribution" in any letter case is Financing |
| Ledger.PhraseIsMention | src/database.ts:53 | a note equal to the phrase up to case mentions the phrase |
| Ledger.MentionPassesFinancingTest | src/database.ts:53 | a note that mentions the phrase makes the Financing condition true whatever the account |
| Ledger.AtDefaults | src/database.ts:62 | the backfill's guard: the row still holds `cashflow_category` = 'Operating' and `is_cash_transaction` = FALSE; stated by `Ledger.BackfillEffect` |
| Ledger.Reclassified | src/database.ts:47-62 | one row after the backfill `UPDATE`; stated by `Ledger.BackfillEffect` and `Ledger.BackfillIdempotent` |
| Ledger.BackfillAll | src/database.ts:47-62 | the backfill keeps the number of rows |
| Ledger.BackfillEffect | src/database.ts:47-62 | a row not at (`Operating`, FALSE) is unchanged, no column but the two helper columns ever changes, and a row at the defaults gets the category the rule derives and `is_cash_transaction` = (account is Cash or bankaccount is not NULL) |
| Ledger.BackfillIdempotent | src/database.ts:47-62 | running the backfill a second time changes nothing |
| Ledger.SeedRow | src/database.ts:72-73 | one inserted row of company 1, with every column given; used by `Ledger.SeedRows` |
| Ledger.SeedRows | src/database.ts:75-83 | the nine sample rows; their classification is stated by `Ledger.SeedCacheDisagreesWithRule` and `CashFlow.SeedCashFlows` |
| Ledger.SeedCacheDisagreesWithRule | src/database.ts:79-82 | the seeded "Payment received" and "Loan deposit" rows are stored as Operating and Financing, the rule classifies both as Investing, and the backfill's guard skips them |
| Ledger.CashReceiptIsInvesting | src/database.ts:50-56 | a Cash row whose note is shorter than the phrase is Investing |
| Ledger.ShortNoteNotFinancing | src/database.ts:53 | a Cash row whose note is shorter than the phrase fails the Financing condition |
| Ledger.BackfillKeepsSeed | src/database.ts:47-62 | backfilling the freshly seeded table changes no row |
| Ledger.LedgerTable.constructor | src/database.ts:16-32 | a table starts with the given rows |
| Ledger.LedgerTable.Backfill | src/database.ts:47-62 | the table after the `UPDATE` is the row-wise backfill of the table before it |
| Ledger.LedgerTable.SeedIfEmpty | src/database.ts:66-87 | an empty table becomes exactly the nine sample rows, and any other table is left as it was |
| Ledger.LedgerTable.InitDb | src/database.ts:47-87 | `initDb` turns an empty table into the sample rows and any other table into its backfill, with no seeding |
| CashFlow.ActivityType | src/routes/cashflow.ts:34-40 | the report's inline `CASE`; stated by `CashFlow.ActivityTypeIsClassify` |
| CashFlow.ActivityTypeIsClassify | src/routes/cashflow.ts:34-40 | the report's inline `CASE` gives every row the same category as the backfill's rule |
| CashFlow.CashFlows | src/routes/cashflow.ts:25-45 | the `cash_flows` subquery: per selected row, in order, its activity type and `net_cash`; stated by `CashFlow.CashFlowsTail` and `CashFlow.CashFlowsSameFacts` |
| CashFlow.CashFlowsTail | src/routes/cashflow.ts:25-45 | the subquery maps row by row: dropping the first row drops its first result |
| Ledger.Counted | src/routes/cashflow.ts:48-50 | a NULL amount counts as 0 in every `SUM`; used by `Ledger.NetValue` and `CashFlow.Aggregate` |
| CashFlow.Inflow | src/routes/cashflow.ts:48 | `CASE WHEN net_cash > 0 THEN net_cash ELSE 0 END`; its bound is stated by `CashFlow.Aggregate` |
| CashFlow.Outflow | src/routes/cashflow.ts:49 | `CASE WHEN net_cash < 0 THEN ABS(net_cash) ELSE 0 END`; its bound is stated by `CashFlow.Aggregate` |
| CashFlow.Aggregate | src/routes/cashflow.ts:46-52 | per category, inflows and outflows are never negative and net = inflows - outflows |
| CashFlow.Occurs | src/routes/cashflow.ts:52 | `GROUP BY` returns a group for a category exactly when some subquery row has it; used by `CashFlow.MergedGroupByAt` |
| CashFlow.AbsentIsZero | src/routes/cashflow.ts:48-52 | a category with no row in the range aggregates to {0, 0, 0} |
| CashFlow.AggregateCons | src/routes/cashflow.ts:48-50 | proof step: one more row in front adds its inflow, outflow and net to its own category's sums only |
| CashFlow.AggregateAppend | src/routes/cashflow.ts:48-50 | the sums over two runs of rows put together are the sums of each run added |
| CashFlow.NetsPartitionTotal | src/routes/cashflow.ts:41-52 | every row's net lands in exactly one category, so the three category nets over the subquery rows add up to `SUM(debit - credit)` over the selected rows |
| CashFlow.InPeriod | src/routes/cashflow.ts:43-44 | `companyid = $1 AND date BETWEEN $2 AND $3`, both ends inclusive; stated by `CashFlow.PeriodRowsAre` |
| CashFlow.Period | src/routes/cashflow.ts:42-44 | the rows the subquery selects; stated by `CashFlow.PeriodRowsAre` and `CashFlow.ReversedRangeIsEmpty` |
| CashFlow.UpTo | src/routes/cashflow.ts:81-82 | `companyid = $1 AND date <= $2`; used by `CashFlow.ClosingBalance` |
| CashFlow.ClosingBalance | src/routes/cashflow.ts:78-88 | the closing-balance query, 0 when no row matches; stated by `CashFlow.ClosingIsOpeningPlusNetChange` |
| CashFlow.CashFlowReport | src/routes/cashflow.ts:24-94 | the body of a successful report; stated by `CashFlow.HandleCashFlow`, `CashFlow.NetChangeIsPeriodTotal`, `CashFlow.EmptyPeriodReport` and `CashFlow.SeedJanuaryReport` |
| CashFlow.GroupBy | src/routes/cashflow.ts:46-52 | the grouped result rows, one per category that occurs when `order` lists each category once, in that order; stated by `CashFlow.MergedGroupByAt` |
| CashFlow.ResponseKey | src/routes/cashflow.ts:68 | the response key of a category; tied to lower-casing by `CashFlow.LowerCategoryName` |
| CashFlow.InitialResponse | src/routes/cashflow.ts:61-65 | the zero-initialised response object; stated by `CashFlow.MergedGroupByAt` |
| CashFlow.Merged | src/routes/cashflow.ts:61-73 | the response object after the `forEach`; stated by `CashFlow.MergeGroups` and `CashFlow.MergedIsAggregated` |
| CashFlow.MergeGroups | src/routes/cashflow.ts:61-73 | the `forEach` loop leaves the response object the zero-initialised object overwritten in turn by each result row under its lower-cased activity type |
| CashFlow.LowerCategoryName | src/routes/cashflow.ts:68 | proof step: lower-casing a category's name gives its response key |
| CashFlow.MergedAppend | src/routes/cashflow.ts:67-73 | proof step: merging one more result row overwrites only that row's key |
| CashFlow.MergedGroupByStep | src/routes/cashflow.ts:61-73 | one more category in the group order overwrites that category's key with its aggregate when it has rows, and changes nothing otherwise |
| CashFlow.MergedGroupByKeys | src/routes/cashflow.ts:61-73 | the merged response has exactly the keys operating, investing and financing |
| CashFlow.ListedInFrontOrLast | src/routes/cashflow.ts:61-73 | proof step: a category is in the group order exactly when it is listed before the last entry or is the last entry |
| CashFlow.MergedGroupByAt | src/routes/cashflow.ts:61-73 | after the merge, a category's key holds its aggregate when the query returned a group for it, and {0, 0, 0} otherwise |
| CashFlow.MergedResponse | src/routes/cashflow.ts:61-73 | whatever order the groups arrive in, each key of the merged response holds its category's aggregate |
| CashFlow.MergedIsAggregated | src/routes/cashflow.ts:61-73 | whatever order the groups arrive in, the merged response is exactly {operating, investing, financing}, each holding its category's aggregate |
| CashFlow.HandleCashFlow | src/routes/cashflow.ts:16-99 | a missing companyid, fromDate or toDate gives a 400 with "Missing query params". Otherwise the body is the three category aggregates over the range, their summed net change, and the closing balance |
| CashFlow.NetChangeIsPeriodTotal | src/routes/cashflow.ts:75-76 | netChange is the sum of `debit - credit` over every row in the range |
| CashFlow.PeriodRowsAre | src/routes/cashflow.ts:42-44 | the report aggregates exactly the company's rows dated from fromDate to toDate inclusive, with no cash-transaction filter |
| CashFlow.ReversedRangeIsEmpty | src/routes/cashflow.ts:44 | a range whose start is after its end selects no row |
| CashFlow.EmptyPeriodReport | src/routes/cashflow.ts:61-76 | a range that selects nothing gives three zero categories and netChange 0 |
| CashFlow.ClosingIsOpeningPlusNetChange | src/routes/cashflow.ts:78-88 | the closing balance has no lower date bound: for fromDate ≤ toDate it is the company's balance before fromDate plus the range's netChange |
| CashFlow.CashFlowsSameFacts | src/routes/cashflow.ts:25-45 | the subquery's rows do not depend on the helper columns |
| CashFlow.PeriodFlowsSameFacts | src/routes/cashflow.ts:25-45 | the subquery over the selected range does not depend on the helper columns |
| CashFlow.ClosingBalanceSameFacts | src/routes/cashflow.ts:78-88 | the closing balance does not depend on the helper columns |
| CashFlow.ReportIgnoresCachedColumns | src/routes/cashflow.ts:24-88 | two tables that differ only in `cashflow_category` and `is_cash_transaction` give the same report |
| CashFlow.SeedCashFlows | src/database.ts:75-83 | the subquery turns the seeded rows, in order, into Financing 10000, Operating -2000, Operating -3000, Operating -8000, Investing 8000, Operating -500, Financing -7000, Investing 7000 and Operating -500: the capital contribution is Financing and the other two cash receipts are Investing |
| CashFlow.SeedRowsAreJanuary | src/database.ts:75-83 | every seeded row is company 1's and dated from 2025-01-01 to 2025-01-31 |
| CashFlow.AllInPeriodSelected | src/routes/cashflow.ts:43-44 | when every row is in the range, both the subquery's and the closing balance's `WHERE` keep the whole table |
| CashFlow.SeedTotal | src/database.ts:75-83 | the seeded rows' `debit - credit` add up to 4000 |
| CashFlow.SeedOperating | src/routes/cashflow.ts:46-52 | the seeded rows' Operating group is {0, 14000, -14000} |
| CashFlow.SeedInvesting | src/routes/cashflow.ts:46-52 | the seeded rows' Investing group is {15000, 0, 15000} |
| CashFlow.SeedFinancing | src/routes/cashflow.ts:46-52 | the seeded rows' Financing group is {10000, 7000, 3000} |
| CashFlow.SeedJanuaryReport | src/routes/cashflow.ts:24-94 | the seeded company's report for 2025-01-01 to 2025-01-31 is operating {0, 14000, -14000}, investing {15000, 0, 15000}, financing {10000, 7000, 3000}, net change 4000 and closing balance 4000 |
| Reconciliation.OnAccount | src/routes/reconciliation.ts:28 | `companyid = $1 AND bankaccount = $2`; a NULL `bankaccount` never matches; used by `Reconciliation.LedgerIsOutstandingPlusSettled` |
| Reconciliation.Outstanding | src/routes/reconciliation.ts:40 | the same test plus `reconciled = FALSE`; stated by `Reconciliation.OutstandingRowsAre` |
| Reconciliation.LedgerBalance | src/routes/reconciliation.ts:25-31 | the ledger-balance query, 0 when no row matches; stated by `Reconciliation.LedgerIsOutstandingPlusSettled` |
| Reconciliation.OutstandingRows | src/routes/reconciliation.ts:37-42 | the unreconciled rows of the account, in table order; stated by `Reconciliation.OutstandingRowsAre` |
| Reconciliation.ItemKind | src/routes/reconciliation.ts:47-49 | the item type; stated by `Reconciliation.ToItems` and `Reconciliation.BankChargeTestIsCaseSensitive` |
| Reconciliation.ToItems | src/routes/reconciliation.ts:44-50 | the `map` fails exactly when some row's note is NULL. Otherwise there is one item per row, in order, carrying the row's reference and `debit - credit`, typed "bank charge not recorded" exactly when the note contains "Bank charge" (case-sensitively) and "outstanding cheque" exactly when it does not |
| Reconciliation.SumAmounts | src/routes/reconciliation.ts:52-53 | the left-to-right `reduce` of the amounts from 0; stated by `Reconciliation.SumAmountsCons` and `Reconciliation.SumOfItemsIsTotal` |
| Reconciliation.SumAmountsCons | src/routes/reconciliation.ts:52-53 | the left-to-right `reduce` of the amounts takes the first item's amount plus the sum of the rest |
| Reconciliation.SumOfItemsIsTotal | src/routes/reconciliation.ts:52-53 | the items' amounts add up to the net of the unreconciled rows |
| Reconciliation.HandleReconciliation | src/routes/reconciliation.ts:16-65 | a 400 "Missing query params" exactly when companyid or bankaccount is missing. A 500 "Internal server error" exactly when they are present and some unreconciled row has a NULL note. Every other request succeeds, with the account's ledger balance, bank balance 19000, the items of the unreconciled rows, and adjusted balance = 19000 + their net |
| Reconciliation.ValidRequestSucceeds | src/routes/reconciliation.ts:16-60 | a request with a companyid and a non-empty bankaccount, whose unreconciled rows all have a note, gets a report and not an error |
| Reconciliation.OutstandingRowsAre | src/routes/reconciliation.ts:37-42 | the items come from exactly the rows of the company and account whose `reconciled` is FALSE; a NULL `reconciled` does not count |
| Reconciliation.LedgerIsOutstandingPlusSettled | src/routes/reconciliation.ts:25-42 | the ledger balance, which has no date or reconciled filter, is the unreconciled rows' net plus the other rows' net |
| Reconciliation.AdjustedMatchesLedger | src/routes/reconciliation.ts:25-53 | the adjusted balance equals the ledger balance exactly when the account's settled rows net to 19000 |
| Reconciliation.BankChargeTestIsCaseSensitive | src/routes/reconciliation.ts:47-49 | a note "bank charge" is typed "outstanding cheque", while "Bank charge" is typed "bank charge not recorded" |
| Reconciliation.NoMarkerInitialIsCheque | src/routes/reconciliation.ts:47-49 | a note without the capital 'B' of "Bank charge" is typed "outstanding cheque" |
| Reconciliation.SeedItemKinds | src/database.ts:77-83 | the two seeded rows with `reconciled` FALSE, notes "Purchase inventory" and "Monthly service charge", are both typed "outstanding cheque" |

## Left out

- The connection pool and its lazy singleton are driver plumbing and are not modelled. The `CREATE TABLE` and `ALTER TABLE` statements are not modelled either: the row is a datatype, and the column defaults appear only as the backfill's guard.
- The surrogate `id SERIAL` column is not modelled, because no modelled operation reads it.
- The Express routing, JSON serialisation, `dotenv` and the server start-up are not modelled. src/index.ts is not part of this model. The handlers return a `Response` value.
- No modelled file calls `initDb`: src/index.ts starts the server without it. The backfill and the seeding therefore run only when a caller outside these files invokes `initDb`. `Ledger.LedgerTable.InitDb` models what one call does, not when calls happen.
- `Number(...)` on NUMERIC strings is not modelled as floating point. Amounts are unbounded integers in minor units.
- Console logging is not modelled.
- The database is not modelled as failing. A failed query, or a non-numeric `companyid` or date that the database rejects, would answer with a 500 in the source; in the model those are not inputs.
- Query parameters given as arrays or objects are not modelled. A parameter is absent, empty or one value.
- The async execution and the absence of a snapshot between a handler's two queries are not modelled. Both queries read the same table.
- The result order of queries without `ORDER BY` is not modelled as database behaviour. The `WHERE` keeps table order, and the grouped result's order is the `order` parameter of `CashFlow.HandleCashFlow`, which lists each category exactly once.
- `ILIKE` is modelled with ASCII lower-casing only: no Unicode case folding and no collation. The `LIKE` escape character is not modelled, because the one pattern used contains no backslash.
- The row count is not modelled as a separate `SELECT COUNT(*)` query. `Ledger.LedgerTable.SeedIfEmpty` reads the length of the row sequence.
- The subquery's other columns (`date`, `account`, `debit`, `credit`, `bankaccount`, `reference`, `companyid`) are not carried into `CashFlow.FlowRow`, because the grouped query reads only `activity_type` and `net_cash`.
