# CoinSage money-moving handlers in Dafny

CoinSage is a personal-finance web application. Its server keeps accounts,
people, income sources, income goals, expenses, incomes and loans in a document
database. This project models the four request handlers that move money
between those records:

- **POST /api/expense**, the "GoDutch" engine. It validates a shared bill and
  builds a share map (who owes what) and a paid map (who paid what). It debits
  what the user personally paid from their account and credits the user's own
  share to their income goal. It then writes one split row per participant,
  nets the other participants' over- and under-payments into proportional
  debts, and records the goal allocation.
- **POST /api/incomes** validates an income and credits its full amount to the
  destination account. The goals it lists each get
  `floor(amount * rate / 100)` when that is positive, with one allocation
  record per credited goal.
- **POST /api/loan** checks the required fields and both people. When an
  account is named, it moves the account's balance by the amount if exactly
  one side of the loan is the user's own person, then records the loan.
- **POST /api/incomeGoals** runs a fixed, ordered list of checks on the request
  body and creates one goal for one of the user's accounts.

Each handler is written twice, in two styles:

- **Spec function.** A pure transition on the whole database:
  - `ExpensePost`, `IncomePost`, `LoanPost` and `GoalPost`;
  - each takes a `Store.State` and returns an `Outcome`, which is the response
    together with the database after the call.
- **Method.** The handlers that update documents in place also exist as
  methods on the `Store.Db` class, which holds one field per collection:
  - `ExpenseRoute.Post`, `IncomeRoute.Post` and `LoanRoute.Post`;
  - each is built from a `PreparePlan` method (checks and lookups only) and a
    `Commit` method (the writes, with the source's loops);
  - each is proved to leave exactly the state its spec function describes.

The laws are proved about the spec functions, in these files:
- `expense_laws.dfy`
- `income_laws.dfy`
- `settlement_laws.dfy`, on what the debts and split rows of an expense add
  up to
- the last sections of `expense.dfy`, `incomes.dfy`, `loan.dfy` and
  `income_goals.dfy`

Modelling conventions:
- **Money** is exact (`real`).
- **`+x.toFixed(2)`** is `Money.Round2`: round to cents, halves away from zero.
- **`Math.floor`** is `Money.Floor`.
- **Request fields** are JSON values (`Js.JsValue`) with JavaScript
  truthiness. `x?.trim()` is modelled exactly, including the TypeError it
  throws on a non-string value.
- **Lookups.** The model reads `findOne({ _id, user })` as a map lookup
  that succeeds only when the record exists and belongs to the user
  (`Store.FindOwned`, for accounts, goals and income sources). It reads
  `findById` as a plain map lookup whoever owns the record
  (`Store.FindPerson`, used by the loan handler).
- **Inputs taken as parameters:**
  - the user id, which comes from the authentication token;
  - the id of the user's own person in an expense;
  - the fresh id of a new goal;
  - whether the goal's target date parses.

Things the proofs bring out:
- **Expense record kept on a failed funds check.** The expense handler creates
  its Expense record before the funds check (`expense/route.ts:254-275`). A
  request that fails that check with "Insufficient funds" leaves the record
  behind, even though no balance, split, debt or allocation is written
  (`ExpenseLaws.RefusalKeepsState`).
- **`totalAmount` holds the share, not the payment.** The comment above the
  expense handler says `totalAmount` stores what the user paid
  (`expense/route.ts:66`), but the code stores the user's share (line 259).
  The model follows the code.
- **Repeated goal ids are refused.** The income handler refuses a goal list
  that repeats an id: the lookup finds fewer goals than ids and the count check
  fails (`IncomeRoute.FoundAll`).
- **No upper bound on `allocationRate`.** The income-goal handler checks
  `allocationRate >= 0` but sets no upper bound. The total allocated from an
  income is bounded by the income only when the listed goals' rates add up to
  100 or less (`IncomeLaws.AllocatedWithinIncome`).
- **Each underpayer's debts settle its shortfall.** A participant short of
  its share by more than 0.001 owes, over all the debts of the expense, its
  shortfall to within half a cent per overpayer. When nobody overpaid it
  owes nothing (`SettlementLaws.DebtRowsCoverShortfalls`). One would expect
  each participant's debts to match its difference within 0.02. The proved
  half-cent-per-overpayer bound guarantees that only up to four overpayers.
  Each portion is rounded to cents on its own, and a portion below half a
  cent is dropped. Against ten overpayers of a cent each, an underpayer 4
  cents short owes each a portion of 0.004. Every portion rounds to 0, so it
  owes nothing at all (`SettlementLaws.ShortfallLostInRounding`). Rounding
  can overshoot too. Against six overpayers of a cent each, an underpayer 9
  cents short owes each a portion of 0.015, which rounds up to 0.02. It owes
  0.12 in all, 3 cents more than its shortfall
  (`SettlementLaws.SixOverpayersOvershoot`).
- **The payee side does not balance.** Debts go to overpayers in proportion
  to their credit, scaled to the underpayers' shortfall. Someone who paid
  but has no share gets no debt at all (they are not a share-map key, so
  they are never classified). Take a bill of 100 with the AMOUNT split
  `[{A, 50}]` and the payers `[{A, 60}, {X, 40}]`. The user's own person
  then absorbs a share of 50. "A" is 10 over and the user is 50 short. The
  one debt makes the user owe "A" all 50, five times "A"'s credit, while
  "X", who paid 40, is owed nothing (`SettlementLaws.OverpayerOverCredited`).
- **Split rows carry the shares, not the payments.** The rows' shares add up
  to the bill, to within a cent above plus half a cent per row either way
  (`SettlementLaws.SplitSharesNearBill`). Their `paidAmount`s need not add
  up to what was paid: in the example above the rows carry 60 of the 100
  paid, and "X" has no row at all (`SettlementLaws.PaidRowsMissPayer`).

## Model

| member | source | states |
|---|---|---|
| Money.Round2 | coinsage/src/app/api/expense/route.ts:296-297 | `+x.toFixed(2)` lies within half a cent of `x` and keeps its sign |
| Money.Floor | coinsage/src/app/api/incomes/route.ts:96 | `Math.floor(x)` is the integer `r` with `r <= x < r + 1` |
| Money.RoundedPositive | coinsage/src/app/api/expense/route.ts:330-332 | a rounded difference passes `> 0.001` exactly when the difference was at least half a cent |
| Money.RoundedNegative | coinsage/src/app/api/expense/route.ts:330-334 | a rounded difference passes `< -0.001` exactly when it was at most minus half a cent |
| Money.RoundedAtLeastCent | coinsage/src/app/api/expense/route.ts:348-349 | a non-negative amount rounds to at least a cent exactly when it is at least half a cent |
| Money.RoundWholeCents | coinsage/src/app/api/expense/route.ts:296 | rounding an amount already in whole cents leaves it unchanged |
| Js.TrimIdempotent | coinsage/src/app/api/incomeGoals/route.ts:104 | trimming a trimmed name changes nothing |
| Js.TrimEmptyIffBlank | coinsage/src/app/api/expense/route.ts:98 | `s.trim()` is empty exactly when `s` is all whitespace |
| Js.TrimHasNoOuterWhitespace | coinsage/src/app/api/expense/route.ts:258 | a trimmed string neither starts nor ends with whitespace |
| Js.TrimIsInfix | coinsage/src/app/api/expense/route.ts:258 | `s.trim()` is a contiguous piece of `s` with only whitespace cut from either end |
| Js.TestTrimMatchesTrim | coinsage/src/app/api/expense/route.ts:98 | `!v?.trim()` is true for nullish and blank values, false for a string with a non-blank character, and throws on anything else |
| Js.RequireText | coinsage/src/app/api/expense/route.ts:128-151 | a required id passes exactly when it is a string with a non-blank character; nullish and blank values give the field's error, other values a TypeError |
| Tally.AddKeepsValid | coinsage/src/app/api/expense/route.ts:209-210 | `map[id] = (map[id] \|\| 0) + x` adds `x` to that key only, appends a new key at the end, and raises the running sum by `x` |
| Tally.SumAddAtKey | coinsage/src/app/api/expense/route.ts:209 | adding to one key's amount adds the same to the sum over the keys |
| ExpenseRoute.Validate | coinsage/src/app/api/expense/route.ts:98-151 | an accepted body has a non-blank string name (stored trimmed), a positive numeric bill, a PERCENTAGE or AMOUNT split type, array splits, a non-empty payer array, a truthy date, and non-blank string account, goal, category and type ids, all carried over as sent |
| ExpenseRoute.Step | coinsage/src/app/api/expense/route.ts:192-210 | one loop iteration accepts an entry exactly when its person id is a non-blank string and its value a non-negative number |
| ExpenseRoute.FoldRejectsInvalidEntry | coinsage/src/app/api/expense/route.ts:191-204 | one bad split or payer entry anywhere makes the loop fail |
| ExpenseRoute.FoldKeepsFailure | coinsage/src/app/api/expense/route.ts:193-204 | once the loop has returned an error, the later entries do not change it |
| ExpenseRoute.FoldTotals | coinsage/src/app/api/expense/route.ts:189-211 | the completed loop lists the named people once each; an id given more than once has its amounts added; the running sum is the sum of all entries |
| ExpenseRoute.FoldValid | coinsage/src/app/api/expense/route.ts:209-210 | the completed loop's running sum `sumOfShares` equals the sum of the entries |
| ExpenseRoute.FoldAt | coinsage/src/app/api/expense/route.ts:209 | after the loop a person is a key exactly when named, with the sum of their entries |
| ExpenseRoute.ShareAmountNonNegative | coinsage/src/app/api/expense/route.ts:205-208 | a non-negative split value gives a non-negative share of a non-negative bill |
| ExpenseRoute.FoldNonNegative | coinsage/src/app/api/expense/route.ts:199-209 | every amount accumulated in either map is non-negative |
| ExpenseRoute.ShareMapBalances | coinsage/src/app/api/expense/route.ts:189-220 | the share map always lists the user's own person, and its shares add up to at least the bill and at most a cent more |
| ExpenseRoute.AbsorbsRemainder | coinsage/src/app/api/expense/route.ts:213-220 | giving the user's own person `max(0, bill - sum)` keeps the map well formed and brings its sum to between the bill and a cent more |
| ExpenseRoute.ShareMapShares | coinsage/src/app/api/expense/route.ts:205-220 | each share is the sum of that person's split entries; the user's own person also gets `max(0, bill - sum of splits)` |
| ExpenseRoute.ShareMapNonNegative | coinsage/src/app/api/expense/route.ts:199-220 | with a positive bill no share is negative |
| ExpenseRoute.ShareMapRejectsExcess | coinsage/src/app/api/expense/route.ts:213-219 | the splits are refused exactly when they exceed the bill by more than a cent |
| ExpenseRoute.PaidMapBalances | coinsage/src/app/api/expense/route.ts:223-247 | the paid map is accepted exactly when its sum is within a cent of the bill; each payer's amount is the sum of their entries and is non-negative |
| ExpenseRoute.BuildShareMap | coinsage/src/app/api/expense/route.ts:189-220 | the share-map loop returns what `ShareMap` specifies |
| ExpenseRoute.BuildPaidMap | coinsage/src/app/api/expense/route.ts:223-247 | the paid-map loop returns what `PaidMap` specifies |
| ExpenseRoute.Prepare | coinsage/src/app/api/expense/route.ts:98-247 | a request that passes every check before the first write has a positive bill and carries the given user and self person |
| ExpenseRoute.Lookup | coinsage/src/app/api/expense/route.ts:157-247 | the ownership lookups and both maps keep the checked body, user and self person |
| ExpenseRoute.WriteSplits | coinsage/src/app/api/expense/route.ts:294-320 | the split-row loop writes exactly the rows `SplitRows` specifies |
| ExpenseRoute.Classify | coinsage/src/app/api/expense/route.ts:323-336 | the classification loop yields the overpayer and underpayer lists in key order |
| ExpenseRoute.OverpayerIff | coinsage/src/app/api/expense/route.ts:327-332 | a participant is an overpayer exactly when their rounded difference is above 0.001, with that difference |
| ExpenseRoute.UnderpayerIff | coinsage/src/app/api/expense/route.ts:327-335 | a participant is an underpayer exactly when their rounded difference is below -0.001, with that difference |
| ExpenseRoute.Classification | coinsage/src/app/api/expense/route.ts:327-336 | nobody is both an overpayer and an underpayer, and every participant past either threshold is classified |
| ExpenseRoute.TotalOverpaidBounds | coinsage/src/app/api/expense/route.ts:337 | the total overpaid is non-negative, above 0.001 when anyone overpaid, and at least each overpayer's credit |
| ExpenseRoute.UnderpayerDebts | coinsage/src/app/api/expense/route.ts:346-380 | the inner netting loop writes what `UnderDebts` specifies |
| ExpenseRoute.NetDebts | coinsage/src/app/api/expense/route.ts:343-381 | the netting loops write what `NettedDebts` specifies |
| ExpenseRoute.UnderDebtsOk | coinsage/src/app/api/expense/route.ts:346-380 | every debt one underpayer owes is well formed |
| ExpenseRoute.NettedDebtsOk | coinsage/src/app/api/expense/route.ts:343-381 | every netted debt is well formed |
| ExpenseRoute.DebtRowsWellFormed | coinsage/src/app/api/expense/route.ts:343-381 | every debt is pending with equal original and remaining amounts of at least a cent; it runs from an underpayer to an overpayer for the proportional amount; a side is "User" exactly when it is the user's own person; no party owes itself |
| ExpenseRoute.UnderDebtsComplete | coinsage/src/app/api/expense/route.ts:346-349 | an underpayer owes each overpayer a debt whenever the rounded portion reaches a cent |
| ExpenseRoute.NettedDebtsComplete | coinsage/src/app/api/expense/route.ts:343-380 | every underpayer–overpayer pair whose portion reaches a cent gets its debt |
| ExpenseRoute.NoDebtsWithoutOverpayment | coinsage/src/app/api/expense/route.ts:345 | no debts are written when the total overpaid is below 0.001 |
| ExpenseRoute.PreparePlan | coinsage/src/app/api/expense/route.ts:98-247 | the checks and lookups read the database and give what `Prepare` specifies |
| ExpenseRoute.Commit | coinsage/src/app/api/expense/route.ts:253-391 | the writes leave the database `Record` specifies |
| ExpenseRoute.Post | coinsage/src/app/api/expense/route.ts:74-414 | the handler leaves the response and database `ExpensePost` specifies |
| ExpenseLaws.FoldNeverShort | coinsage/src/app/api/expense/route.ts:191-241 | the accumulation loops only fail with entry errors |
| ExpenseLaws.PrepareNeverShort | coinsage/src/app/api/expense/route.ts:98-247 | no check made before the first write reports missing funds |
| ExpenseLaws.RefusalKeepsState | coinsage/src/app/api/expense/route.ts:254-275 | a refusal changes nothing except on a failed funds check, which leaves just the Expense record; the funds check fails exactly when the user paid more than the account holds plus 0.001 |
| ExpenseLaws.LookupRefusesBadEntry | coinsage/src/app/api/expense/route.ts:193-238 | an entry with a blank person id or a negative or non-numeric value is refused |
| ExpenseLaws.LookupRefusesUnbalanced | coinsage/src/app/api/expense/route.ts:213-247 | splits above the bill, or payments away from it, by more than a cent are refused |
| ExpenseLaws.RejectsMalformed | coinsage/src/app/api/expense/route.ts:101-124 | a non-positive bill, a bad split type, non-array splits, a missing or empty payer list, or a bad entry is refused with no state change |
| ExpenseLaws.RejectsMissingField | coinsage/src/app/api/expense/route.ts:98-151 | a missing, blank or non-string name, account, goal, category or type id, or a falsy date, is refused with no state change |
| ExpenseLaws.RejectsUnbalanced | coinsage/src/app/api/expense/route.ts:213-247 | unbalanced splits or payments are refused with no state change |
| ExpenseLaws.SelfAmounts | coinsage/src/app/api/expense/route.ts:220-251 | the user's share is their split entries plus whatever the splits leave of the bill; what they paid is their payer entries; both are non-negative |
| ExpenseLaws.UserAmounts | coinsage/src/app/api/expense/route.ts:250-251 | `userPaid` and `userShare` of a planned expense, in terms of the request's entries |
| ExpenseLaws.CommittedBalances | coinsage/src/app/api/expense/route.ts:270-281 | a committed expense debits the account exactly `userPaid` and credits the goal (absent = 0) exactly `userShare`; no other account or goal changes |
| ExpenseLaws.CommittedRecords | coinsage/src/app/api/expense/route.ts:254-391 | a committed expense appends its record (`totalAmount` = user's share), one allocation of the share, its split rows and debts, and touches no other collection |
| ExpenseLaws.ShareMapKeys | coinsage/src/app/api/expense/route.ts:209-220 | the share map's keys are the user's own person and everyone a split entry names |
| ExpenseLaws.PlanParticipants | coinsage/src/app/api/expense/route.ts:189-220 | the participants are listed once each: the user's own person and everyone named in a split |
| ExpenseLaws.SplitRowsParticipants | coinsage/src/app/api/expense/route.ts:295-320 | exactly one split row per participant, each pointing at the new expense |
| ExpenseLaws.SplitRowsAmounts | coinsage/src/app/api/expense/route.ts:296-298 | a row's share and payment are the rounded amounts, both non-negative; it is marked paid exactly when at least half a cent was paid |
| ExpenseLaws.FirstSplitValueIsFirstMatch | coinsage/src/app/api/expense/route.ts:300-303 | a PERCENTAGE `sharePercent` comes from the first split entry naming the participant, and is 0 when none does |
| ExpenseLaws.ExampleValidates | coinsage/src/app/api/expense/route.ts:98-151 | the worked example passes the basic checks |
| ExpenseLaws.ExampleShareMap | coinsage/src/app/api/expense/route.ts:189-220 | a 40% split of 100 gives "p1" 40 and the user's own person the remaining 60 |
| ExpenseLaws.ExamplePaidMap | coinsage/src/app/api/expense/route.ts:223-247 | the example's paid map has the user's own person paying all 100 |
| ExpenseLaws.ExamplePrepares | coinsage/src/app/api/expense/route.ts:157-247 | the example passes every check before the first write |
| ExpenseLaws.ExampleLooksUp | coinsage/src/app/api/expense/route.ts:157-247 | with the user's account and goal in place the example's lookups and maps succeed |
| ExpenseLaws.ExampleDiffs | coinsage/src/app/api/expense/route.ts:328-330 | in the example "p1" is 40 short and the user's own person 40 over |
| ExpenseLaws.ExampleClassified | coinsage/src/app/api/expense/route.ts:322-337 | in the example the user's own person is the one overpayer and "p1" the one underpayer, 40 overpaid in all |
| ExpenseLaws.ExampleOwes | coinsage/src/app/api/expense/route.ts:344-348 | "p1" owes the whole 40 to the one overpayer |
| ExpenseLaws.ExampleDebts | coinsage/src/app/api/expense/route.ts:322-381 | in the example "p1" owes the user 40 |
| ExpenseLaws.ExampleRows | coinsage/src/app/api/expense/route.ts:295-320 | the example's split rows: "p1" 40% of 40, unpaid; the user 60, paid 100 |
| ExpenseLaws.WorkedExample | coinsage/src/app/api/expense/route.ts:74-414 | the example commits with `totalAmount` 60, one debt of 40 from "p1" to the user, and two split rows |
| ExpenseLaws.ExamplePosts | coinsage/src/app/api/expense/route.ts:253-391 | the example's outcome is what `Record` writes for its plan |
| ExpenseLaws.WorkedExampleBalances | coinsage/src/app/api/expense/route.ts:276-281 | in the example the account drops by 100 and the goal rises by 60 |
| SettlementLaws.PortionsScale | coinsage/src/app/api/expense/route.ts:346-348 | an underpayer's unrounded portions add up to its shortfall times the overpayers' credits over the total overpaid |
| SettlementLaws.PortionsWhole | coinsage/src/app/api/expense/route.ts:337-348 | against the overpayers it is netted with, an underpayer's unrounded portions add up to its whole shortfall |
| SettlementLaws.UnderDebtsNearPortions | coinsage/src/app/api/expense/route.ts:346-380 | an underpayer's debts add up to its unrounded portions within half a cent per overpayer |
| SettlementLaws.DebtsCoverShortfall | coinsage/src/app/api/expense/route.ts:343-380 | an underpayer's debts add up to its shortfall within half a cent per overpayer |
| SettlementLaws.UnderDebtsOwedByOthers | coinsage/src/app/api/expense/route.ts:350-371 | the debts of one underpayer are owed by its own party and no other |
| SettlementLaws.OthersOweNothing | coinsage/src/app/api/expense/route.ts:350-356 | another participant owes nothing over an underpayer's debts |
| SettlementLaws.UnderpayersDistinct | coinsage/src/app/api/expense/route.ts:327-335 | the underpayers of distinct share-map keys are distinct people |
| SettlementLaws.NettedOwedByNone | coinsage/src/app/api/expense/route.ts:343-381 | a participant that is not an underpayer owes nothing over all the debts |
| SettlementLaws.NettedOwedBy | coinsage/src/app/api/expense/route.ts:343-381 | among distinct underpayers, what one owes over all the debts is what its own debts add up to |
| SettlementLaws.DebtRowsCoverShortfalls | coinsage/src/app/api/expense/route.ts:323-381 | every participant short by more than 0.001 owes, over all the debts, its shortfall within half a cent per overpayer, and nothing when nobody overpaid |
| SettlementLaws.PostedDebtsCoverShortfalls | coinsage/src/app/api/expense/route.ts:74-414 | the same for the debts an accepted expense writes |
| SettlementLaws.NoPairReachesCent | coinsage/src/app/api/expense/route.ts:346-349 | an underpayer whose every portion rounds below a cent owes no debt |
| SettlementLaws.SixOverpayersOvershoot | coinsage/src/app/api/expense/route.ts:343-381 | against six overpayers of a cent each, an underpayer 9 cents short owes 0.12, 3 cents over its shortfall |
| SettlementLaws.ShortfallLostInRounding | coinsage/src/app/api/expense/route.ts:343-381 | against ten overpayers of a cent each, an underpayer 4 cents short owes nothing: the half-cent-per-overpayer bound is reached |
| SettlementLaws.RowSharesNearSum | coinsage/src/app/api/expense/route.ts:294-320 | the first k split rows' shares are within half a cent per row of the first k participants' shares |
| SettlementLaws.SplitSharesNearBill | coinsage/src/app/api/expense/route.ts:189-320 | the split rows' shares add up to the bill, within a cent above plus half a cent per row either way |
| SettlementLaws.PostedSharesNearBill | coinsage/src/app/api/expense/route.ts:74-414 | the same for the split rows an accepted expense writes |
| SettlementLaws.CreditShareMap | coinsage/src/app/api/expense/route.ts:189-220 | the AMOUNT split `[{A, 50}]` of a bill of 100 gives "A" 50 and the user's own person the other 50 |
| SettlementLaws.CreditPaidMap | coinsage/src/app/api/expense/route.ts:223-247 | the payers `[{A, 60}, {X, 40}]` of a bill of 100 are accepted as they are |
| SettlementLaws.CreditDebts | coinsage/src/app/api/expense/route.ts:343-381 | the example writes one debt: the user owes "A" 50 |
| SettlementLaws.OverpayerOverCredited | coinsage/src/app/api/expense/route.ts:343-381 | "A" is owed 50 against a credit of 10, and "X", who paid 40 with no share, is owed nothing |
| SettlementLaws.PaidRowsMissPayer | coinsage/src/app/api/expense/route.ts:294-320 | the example's split rows go to "A" and the user and carry 60 of the 100 paid |
| IncomeRoute.Validate | coinsage/src/app/api/incomes/route.ts:32-43 | an accepted body has a non-blank string name that is stored trimmed, a positive numeric amount, non-blank string source and account ids, a truthy date, and a non-empty goal-id array |
| IncomeRoute.FoundGoalsFacts | coinsage/src/app/api/incomes/route.ts:58-61 | the goal lookup yields distinct goals, never more than ids, and exactly the user's goals the list names |
| IncomeRoute.FoundAllIf | coinsage/src/app/api/incomes/route.ts:58-67 | distinct ids, all naming the user's goals, pass the count check |
| IncomeRoute.FoundAllOnlyIf | coinsage/src/app/api/incomes/route.ts:58-67 | ids that pass the count check are distinct and all name the user's goals |
| IncomeRoute.FoundAll | coinsage/src/app/api/incomes/route.ts:58-67 | the count check passes exactly when the ids are distinct and all name the user's goals |
| IncomeRoute.AllocatedGoalsAt | coinsage/src/app/api/incomes/route.ts:94-99 | a goal is credited its allocation exactly when it is listed and the allocation is positive; every other goal is unchanged and none is added |
| IncomeRoute.AllocationRecordsFacts | coinsage/src/app/api/incomes/route.ts:94-107 | one allocation record per listed goal with a positive allocation, no other, at most one per goal, each for exactly that allocation |
| IncomeRoute.AllocationRecordsOf | coinsage/src/app/api/incomes/route.ts:94-107 | each record carries the income and a listed goal's positive allocation, and every listed goal with one has its record |
| IncomeRoute.AllocationRecordsDistinct | coinsage/src/app/api/incomes/route.ts:94-107 | distinct goal ids give records for distinct goals |
| IncomeRoute.AllocationBounds | coinsage/src/app/api/incomes/route.ts:95-96 | with a non-negative rate the allocation is a whole number in `[0, amount * rate / 100]` |
| IncomeRoute.TotalAllocatedStep | coinsage/src/app/api/incomes/route.ts:97-105 | each goal adds its allocation to the recorded total when positive, and nothing otherwise |
| IncomeRoute.QuotaSumScales | coinsage/src/app/api/incomes/route.ts:96 | the unrounded quotas add up to `amount * (sum of rates) / 100` |
| IncomeRoute.AllocatedAtMostQuota | coinsage/src/app/api/incomes/route.ts:94-107 | the records allocate at most the unrounded quotas |
| IncomeRoute.AllocatedAtMost | coinsage/src/app/api/incomes/route.ts:94-107 | the records allocate at most `amount * (sum of rates) / 100` |
| IncomeRoute.AllocatedAtMostIncome | coinsage/src/app/api/incomes/route.ts:94-107 | with rates adding up to at most 100, no more than the income is allocated |
| IncomeRoute.QuotaWithinIncome | coinsage/src/app/api/incomes/route.ts:96 | with rates adding up to at most 100 the unrounded quotas add up to at most the income |
| IncomeRoute.RateSumNonNegative | coinsage/src/app/api/incomes/route.ts:95 | non-negative rates have a non-negative sum |
| IncomeRoute.Prepare | coinsage/src/app/api/incomes/route.ts:32-67 | an accepted request has a positive amount, and every goal it found exists |
| IncomeRoute.PreparePlan | coinsage/src/app/api/incomes/route.ts:32-67 | the checks and lookups read the database and give what `Prepare` specifies |
| IncomeRoute.Allocate | coinsage/src/app/api/incomes/route.ts:94-107 | the allocation loop computes the credited goals and the allocation records the specification functions describe |
| IncomeRoute.AllocationStep | coinsage/src/app/api/incomes/route.ts:94-107 | one more goal of the loop adds its record and its credit exactly when its allocation is positive |
| IncomeRoute.Commit | coinsage/src/app/api/incomes/route.ts:69-113 | the writes (income, account, goals, allocation records) leave the database `Record` specifies |
| IncomeRoute.Post | coinsage/src/app/api/incomes/route.ts:18-128 | the handler leaves the response and database `IncomePost` specifies |
| IncomeLaws.PreparedPlan | coinsage/src/app/api/incomes/route.ts:47-67 | a plan carries the user's own source and account and one found goal per listed id |
| IncomeLaws.Accepted | coinsage/src/app/api/incomes/route.ts:47-79 | an accepted request's outcome is its plan's `Record`, and the plan's fields are the request's |
| IncomeLaws.ListedIsFound | coinsage/src/app/api/incomes/route.ts:58-67 | after the count check, the found goals are exactly the goals the list names |
| IncomeLaws.RecordGoalsAt | coinsage/src/app/api/incomes/route.ts:94-99 | the goals a plan writes, key by key |
| IncomeLaws.RecordAllocations | coinsage/src/app/api/incomes/route.ts:94-113 | each allocation record raises its goal's balance by exactly its amount |
| IncomeLaws.RefusalKeepsState | coinsage/src/app/api/incomes/route.ts:31-67 | a request is refused exactly when a check or lookup fails, and a refusal changes nothing |
| IncomeLaws.AcceptedOnlyIf | coinsage/src/app/api/incomes/route.ts:31-67 | an accepted request had a non-blank name, a positive amount, a truthy date, a non-empty list of distinct ids all naming the user's goals, and non-blank ids of the user's source and account |
| IncomeLaws.AccountCredited | coinsage/src/app/api/incomes/route.ts:69-83 | the income is appended with its trimmed name; the destination account gains exactly the full amount and no other account changes |
| IncomeLaws.GoalsCredited | coinsage/src/app/api/incomes/route.ts:94-99 | a listed goal with a positive `floor(amount * rate / 100)` gains exactly that; all other goals are unchanged and none is added or removed |
| IncomeLaws.AllocationsRecorded | coinsage/src/app/api/incomes/route.ts:94-113 | allocation records are appended, one per credited goal and no other, each for the amount its goal's balance grew |
| IncomeLaws.AllocatedWithinIncome | coinsage/src/app/api/incomes/route.ts:94-107 | with non-negative rates on the listed goals, the new records allocate at most the sum of the listed goals' unrounded quotas `amount * rate / 100`, so no more than the income when the rates add up to 100 or less |
| LoanRoute.Prepare | coinsage/src/app/api/loan/route.ts:50-73 | an accepted request has its required fields and both people; it carries an account exactly when one was named |
| LoanRoute.PreparePlan | coinsage/src/app/api/loan/route.ts:50-73 | the checks and lookups read the database and give what `Prepare` specifies |
| LoanRoute.Commit | coinsage/src/app/api/loan/route.ts:71-97 | the balance update and the loan creation leave the database `Record` specifies |
| LoanRoute.Post | coinsage/src/app/api/loan/route.ts:41-111 | the handler leaves the response and database `LoanPost` specifies |
| LoanRoute.Refusals | coinsage/src/app/api/loan/route.ts:50-73 | each error is given exactly when the earlier checks passed and its own failed: falsy lender, borrower, amount or date; then an unknown person; then an account not the user's. A refusal changes nothing |
| LoanRoute.BalanceRule | coinsage/src/app/api/loan/route.ts:71-83 | the named account falls by the amount when only the lender is the user, rises by it when only the borrower is, and is unchanged when both or neither are; no other account changes |
| LoanRoute.WithoutAccount | coinsage/src/app/api/loan/route.ts:71-97 | without an account only the loan is written; its account is null and `settled` defaults to false |
| LoanRoute.LoanRecorded | coinsage/src/app/api/loan/route.ts:87-97 | the loan is appended with the request's people, amount, date and notes, the user as owner, the named account, `settled` as sent when truthy and otherwise false, and `expense` as sent when truthy and otherwise null |
| IncomeGoalRoute.Validate | coinsage/src/app/api/incomeGoals/route.ts:50-87 | an accepted body has a non-blank name stored trimmed, non-negative numeric rate and target, and a non-blank string account id |
| IncomeGoalRoute.FirstFailureDecides | coinsage/src/app/api/incomeGoals/route.ts:50-99 | each error is given exactly when every earlier check passed and its own failed: name, rate, target, account id, date, ownership |
| IncomeGoalRoute.RefusalKeepsState | coinsage/src/app/api/incomeGoals/route.ts:50-99 | a refused request changes nothing |
| IncomeGoalRoute.GoalCreated | coinsage/src/app/api/incomeGoals/route.ts:93-110 | exactly one goal is added, for the user and one of their accounts, with the trimmed name, non-negative rate and target, the date if given, and the balance as sent or 0 |
| IncomeGoalRoute.CreatedGoalAllocates | coinsage/src/app/api/incomeGoals/route.ts:57-66 | a goal this route creates has a non-negative rate, so every income allocates it a whole amount in `[0, amount * rate / 100]` |

## Left out

- **Authentication.** Reading the user id from the bearer token or cookie is
  not modelled, and neither are the 401 responses; the user id is a parameter.
- **The self person.** The expense handler looks up or lazily creates the
  user's own People record (`expense/route.ts:174-186`). The model takes its id
  as a parameter and does not write that record.
- **Floating point.** Amounts are exact reals, so IEEE double artefacts such
  as `0.1 + 0.2` are not reproduced. `toFixed(2)` is modelled as exact
  rounding of the exact value.
- **Malformed ObjectIds.** The account, goal, source and person lookups
  cast their ids. A malformed id would make mongoose throw a CastError. The
  expense, income and income-goal handlers' catches answer that with a 400
  (`expense/route.ts:404-411`, `incomes/route.ts:122-127`,
  `incomeGoals/route.ts:113-117`). The loan handler's catch answers it with a
  500 (`loan/route.ts:104-109`), so a malformed lender, borrower or account
  id gets a 500 there. In the model such an id, like any unknown string,
  simply matches nothing, so the handler answers "not found" instead
  (`PersonNotFound` or `AccountNotFound` for a loan). The expense handler also casts each share-map key with
  `new mongoose.Types.ObjectId(pid)`, for the split rows
  (`expense/route.ts:317`) and for the debts (lines 356 and 363). A
  malformed key would throw there, after the Expense record, the account
  debit and the goal credit are written (lines 254, 276-277 and 280-281).
  The catch (lines 404-411) would then answer 400 with those writes in
  place. The model accepts any non-blank key and writes every row.
- **Null entries.** A `null` entry in `splits` or `paidBy` makes the
  destructuring at `expense/route.ts:192` or 226 throw a TypeError, which
  the catch turns into a 400. `ExpenseRoute.Entry` is a pair of JSON values,
  so it cannot represent a missing entry, and that error path is not
  modelled.
- **Fields the schema drops.** The expense handler passes `userPaid` to
  `Expense.create` (`expense/route.ts:260`) and the income handler passes
  `user` to each `IncomeAllocation` (`incomes/route.ts:101`). Neither schema
  declares that field, so mongoose's strict mode discards it. `Store.Expense`
  and `Store.IncomeAllocation` leave these fields out, and the model states
  `userPaid` only about the plan (`ExpenseRoute.UserPaid`), never as stored.
- **Schema-level checks.** Mongoose validation (required fields, maxlength 50
  on a goal's name, type casts) is not modelled, nor are timestamps and
  `createdAt`. Also left out: the random `allocationId` of an expense
  allocation and the Decimal128 conversion of its amount.
- **Responses.** `populate` and the exact response shape are not modelled; a
  handler answers with the records it wrote.
- **Dates.** `new Date(date)` conversions are not modelled; dates are stored
  as sent.
- **Failures part-way.** There is no concurrency and no partial failure. The
  handlers' awaits, `Promise.all`, and a save that throws after earlier
  writes are not modelled.
- **Income goal order.** The database returns the goals of an income in its
  own order, which is not specified. The model visits them in the order the
  request first names them, so only the set of allocation records is
  meaningful, not their order.
- IncomeRoute.Rate: `Number(goal.allocationRate) || 0` is taken as the stored
  rate, or 0 when it is absent. Conversion of non-numeric stored values is not
  modelled.
- LoanRoute.Request: the loan amount is a JSON number or absent. JavaScript's
  coercion of a numeric string in `acc.balance -= amount` and
  `+= amount` is not modelled.
- IncomeGoalRoute.Validate: the `isNaN` checks can never fire on a parsed JSON
  body, which has no NaN. Whether `Date.parse(targetDate)` succeeds is a
  parameter.
- **Other handlers.** Every GET handler, the other routes (accounts, category,
  people, income sources, expenditure types, currency, auth), and the
  middleware are not part of this model.
