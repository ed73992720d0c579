# Budget management app — a verified model of its core

The app keeps the shared budget of a household of two people. Each user
records:

- expenses, each on the checking account or the credit card, paid
  automatically or by hand, monthly, quarterly, yearly or in chosen months;
- the income of each of the two people, per month and per pay period
  (`part1`, `part2`);
- credits on four accounts: checking, credit card, line of credit and
  student line of credit;
- settings: the split ratio between the two people, their names, the
  authorised e-mail addresses and the account balances.

A monthly calculation charges each active expense and totals the charges per
account and payment type. It splits every account total between the two
people by the ratio, and splits each person's share between their two pay
periods in proportion to their income.

This project models, in Dafny:

- the calculation service;
- the income, account-credit, expense and settings services, each over an
  in-memory store;
- the validation schemas and status mapping of the controllers;
- the expense form of the frontend: its month toggle, change handler and
  validation;
- the navigation highlight of the layout.

One module per source file:

| module | source file |
|---|---|
| `Records` | the record shapes shared by the services |
| `Months` | `getPreviousMonth` and the `YYYY-MM` month format |
| `Calculation` | `calculation.service.ts` |
| `IncomeService`, `CreditService`, `ExpenseService`, `SettingsService` | the four store services |
| `IncomeController`, `CreditController`, `SettingsController`, `ExpenseSchema` | the schemas and handlers |
| `Http` | the status codes |
| `ExpenseForm` | `ExpenseForm.tsx` |
| `Layout` | `Layout.tsx` |

The form of each part follows its source:

- Stores that the services change in place are classes. A sequence or map
  field holds the rows, and a counter hands out ids.
- Loops that accumulate are methods proved against a specification function.
  These are `CalculateAccountTotal`, the income buckets of
  `getMonthCalculations`, and the insertion sort and `indexOf` of the month
  toggle.
- Schemas, filters and reports are functions.

Amounts are `real`, so the sum identities hold exactly.

Where the code differs from what its names and comments suggest, the model
follows the code:

- `calculateProratedAmount` divides a yearly amount by 12, a quarterly one
  by 3 and a custom one by its number of active months. It does not charge
  the full amount in every active month. `Calculation.YearOfCharges` states
  what this gives over a year.
- The expense schema accepts two account types, `checking` and
  `credit_card`. Credits and the calculation know four.
- The create schemas check the month only against the pattern `YYYY-MM`, so
  a month `2024-13` is accepted. `getPreviousMonth` turns it into
  `2024-12`.

## Model

| member | source | states |
|---|---|---|
| Months.ParseMonth | backend/src/services/income.service.ts:5 | a `YYYY-MM` text splits into a year of at most four digits and a month of at most two |
| Months.PreviousYearMonth | backend/src/services/income.service.ts:6-10 | the previous month of the calendar: the month number less one in the same year, or December of the year before for January; the result's month is always 1 to 12 |
| Months.DecimalRoundTrip | backend/src/services/income.service.ts:10 | reading back the decimal text of a number gives the number |
| Months.PaddedMonthRoundTrip | backend/src/services/income.service.ts:10 | a month 1 to 12, written and padded to two digits, is two digits that read back as the month |
| Months.FormatRoundTrip | backend/src/services/income.service.ts:9-12 | a four-digit year and a month 1 to 12, printed as `YYYY-MM`, form a well-formed key that parses back to the same pair |
| Months.FormatOfPreviousDiffers | backend/src/services/income.service.ts:4-13 | the printed previous month of a key is never the key itself |
| Months.PreviousMonth | backend/src/services/income.service.ts:4-13 | the previous month is never the month itself; when it falls in a four-digit year it is again of the form `YYYY-MM` and parses to the calendar's previous month; the account-credit service repeats the same helper at accountCredit.service.ts:4-13 |
| Months.PreviousMonthOfMarch | backend/src/services/income.service.ts:4-13 | `2024-03` gives `2024-02` |
| Months.PreviousMonthOfJanuary | backend/src/services/income.service.ts:4-13 | `2024-01` gives `2023-12`, across the year |
| Months.PreviousMonthOfThirteenth | backend/src/services/income.service.ts:4-13 | `2024-13` gives `2024-12`, as the date arithmetic rolls month 13 over into the next year |
| Calculation.ProratedAmount | backend/src/services/calculation.service.ts:51-80 | an expense is charged nothing in a month it is not active; a non-negative amount is charged between 0 and the full amount |
| Calculation.RateByFrequency | backend/src/services/calculation.service.ts:59-76 | a custom expense is charged its amount over the number of its active months, a yearly one its amount over 12 |
| Calculation.ChargesThroughAtRate | backend/src/services/calculation.service.ts:51-80 | charging an expense month by month is charging its frequency's rate in each active month |
| Calculation.ActiveChargesAreRateTimesCount | backend/src/services/calculation.service.ts:51-80 | a charge at one rate in each active month of 1 to n adds up to the rate times the number of those months |
| Calculation.ChargesThroughIsRateTimesActive | backend/src/services/calculation.service.ts:51-80 | the charges of the months 1 to n are the per-month charge times the number of active months among them |
| Calculation.ActiveMonthsThroughYear | backend/src/services/calculation.service.ts:55 | well-formed active months (1 to 12, no repeats) are all counted by the end of the year |
| Calculation.YearOfCharges | backend/src/services/calculation.service.ts:51-80 | over a year a custom expense is charged exactly its amount, a yearly one its amount times its active months over 12 |
| Calculation.AccountTotalOf | backend/src/services/calculation.service.ts:85-111 | an account's totals (all, automatic and manual charges of its unarchived expenses active in the month) have the total equal to automatic plus manual |
| Calculation.TotalIsAutomaticPlusManual | backend/src/services/calculation.service.ts:85-111 | an account's total is the sum of its automatic and its manual charges |
| Calculation.IgnoredExpensesAddNothing | backend/src/services/calculation.service.ts:94-99 | expenses on another account, archived, or inactive in the month add nothing to any column |
| Calculation.CalculateAccountTotal | backend/src/services/calculation.service.ts:85-111 | the loop's three sums are the account totals of the expenses, and the total is automatic plus manual |
| Calculation.SplitByIncome | backend/src/services/calculation.service.ts:137-148 | a person's share is split between the pay periods in proportion to their income, in halves when they have none, and the two parts add up to the share |
| Calculation.AccountContributions | backend/src/services/calculation.service.ts:116-154 | each person's total is the account total times their ratio over 100; with ratios summing to 100 the two totals add up to the account total; each person's two parts add up to their total |
| Calculation.ContributionsFollowIncome | backend/src/services/calculation.service.ts:137-148 | a person without income pays equal parts in both periods; a person with income pays part 1 in proportion to the part-1 income |
| Calculation.ContributionsExample | backend/src/services/calculation.service.ts:116-154 | 1200 split 60/40, with incomes 3000/3000 and 0/2000, gives 360/360 and 0/480 |
| Calculation.BucketsByPerson | backend/src/services/calculation.service.ts:199-213 | the income buckets are the part-1 and other income of each named person; a second person with the first person's name gets nothing |
| Calculation.BucketIncome | backend/src/services/calculation.service.ts:194-213 | the loop's four accumulators are the four income buckets |
| Calculation.AccountReport | backend/src/services/calculation.service.ts:320-357 | an account's report carries its totals, the two shares by the ratio and the balance less the total; each share is split between that person's pay periods by their income buckets; with ratios summing to 100 the shares add up to the total, with equal ratios they are equal |
| Calculation.PersonReport | backend/src/services/calculation.service.ts:312-318 | a person's report: income total and parts, contributions, and what remains overall and after each period |
| Calculation.MonthReport | backend/src/services/calculation.service.ts:215-384 | the month report of four account totals and the income buckets: each account's entry by the settings' ratio and balance, each share split by that person's income buckets, each person's contributions summed over the four accounts; month totals and balance add up; with ratios summing to 100 the contributions add up to the expenses; equal ratios give equal contributions |
| Calculation.GetMonthCalculations | backend/src/services/calculation.service.ts:159-384 | the result is the month report of the effective settings (the stored row, or zero balances and a 50/50 split), the income buckets of the month's incomes and the four account totals of the month's expenses; without settings the balances are 0, the two people pay the same, and together they pay the expenses |
| IncomeService.OfUser | backend/src/services/income.service.ts:32-41 | exactly the user's rows |
| IncomeService.OfUserInMonth | backend/src/services/income.service.ts:46-52 | exactly the user's rows of the month |
| IncomeService.GetIncome | backend/src/services/income.service.ts:31-64 | with a month given and no rows in it or in the month before, the answer is empty |
| IncomeService.GetIncomeMembers | backend/src/services/income.service.ts:31-64 | without a month, all the user's rows, not inherited; with a month that has rows, those rows; with an empty month, the previous month's rows shown in the month, inherited, with their original month |
| IncomeService.CurrentMembers | backend/src/services/income.service.ts:63 | rows shown as current are the rows, not inherited, without original month |
| IncomeService.InheritMembers | backend/src/services/income.service.ts:55-60 | inherited rows are the previous month's rows moved to the month, marked inherited, with their original month |
| IncomeService.GetIncomeOfMonth | backend/src/services/income.service.ts:43-63 | for a month, the month's rows when there are any, else the previous month's rows inherited |
| IncomeService.IndexOfOwned | backend/src/services/income.service.ts:93-98 | no position exactly when the user owns no row with the id; otherwise a position of such a row |
| IncomeService.GetIncomeById | backend/src/services/income.service.ts:67-76 | a row of the user with the id, or nothing exactly when there is none |
| IncomeService.GetMonthSummary | backend/src/services/income.service.ts:134-149 | the summary lists exactly the user's rows of the month and totals their amounts; an empty month totals 0 |
| IncomeService.ApplyUpdate | backend/src/services/income.service.ts:104-107 | an update sets the fields it gives and keeps the others, the id and the owner |
| IncomeService.Copies | backend/src/services/income.service.ts:168-180 | one copy per row of the previous month |
| IncomeService.CopiesAt | backend/src/services/income.service.ts:169-178 | copy i is row i with the user, the new month and the i-th new id |
| IncomeService.CopiesAreInMonth | backend/src/services/income.service.ts:170-177 | all copies are the user's rows of the new month |
| IncomeService.CopiesAreNotInOtherMonths | backend/src/services/income.service.ts:175 | no copy is in any other month |
| IncomeService.CopiesAmount | backend/src/services/income.service.ts:174 | the copies total what the previous month totals |
| IncomeService.CopyingForwardRepeats | backend/src/services/income.service.ts:152-183 | after applying, the month holds its rows plus the copies, the previous month is unchanged, and the month's total grows by the previous month's total |
| IncomeService.CopiesShowAsInherited | backend/src/services/income.service.ts:152-183 | the copies read as current lines show the same lines as the inherited view of the previous month |
| IncomeService.ApplyMaterialisesInherited | backend/src/services/income.service.ts:152-183 | applying to an empty month leaves the lines the month shows unchanged, now as its own rows |
| IncomeService.CopiesHaveFreshIds | backend/src/services/income.service.ts:168-180 | the copies' ids are new and distinct, so the store's ids stay distinct and below the counter |
| IncomeService.IncomeStore.CreateIncome | backend/src/services/income.service.ts:79-88 | the new row, with the next id and the user, is appended; its id is new |
| IncomeService.IncomeStore.UpdateIncome | backend/src/services/income.service.ts:91-110 | nothing and no change when the user owns no row with the id, else that row updated in place |
| IncomeService.IncomeStore.DeleteIncome | backend/src/services/income.service.ts:113-131 | nothing and no change when the user owns no row with the id, else that row removed and returned, and the id gone |
| IncomeService.IncomeStore.ApplyInheritedIncome | backend/src/services/income.service.ts:152-183 | the copies of the previous month's rows are appended and returned, with fresh ids |
| CreditService.OfUser | backend/src/services/accountCredit.service.ts:32-40 | exactly the user's credits |
| CreditService.OfUserInMonth | backend/src/services/accountCredit.service.ts:45-51 | exactly the user's credits of the month |
| CreditService.GetAccountCredits | backend/src/services/accountCredit.service.ts:31-63 | with a month given and no credits in it or in the month before, the answer is empty |
| CreditService.GetAccountCreditsMembers | backend/src/services/accountCredit.service.ts:31-63 | the members of the answer without a month, for a month with credits, and for an empty month (the previous month's credits, inherited) |
| CreditService.CurrentMembers | backend/src/services/accountCredit.service.ts:62 | credits shown as current are the credits, not inherited |
| CreditService.InheritMembers | backend/src/services/accountCredit.service.ts:54-59 | inherited credits are the previous month's, moved to the month, with their original month |
| CreditService.GetAccountCreditsOfMonth | backend/src/services/accountCredit.service.ts:42-62 | for a month, its credits when there are any, else the previous month's inherited |
| CreditService.IndexOfOwned | backend/src/services/accountCredit.service.ts:88-90 | no position exactly when the user owns no credit with the id; otherwise a position of such a credit |
| CreditService.GetAccountCreditById | backend/src/services/accountCredit.service.ts:66-70 | a credit of the user with the id, or nothing exactly when there is none |
| CreditService.TotalCreditsByAccount | backend/src/services/accountCredit.service.ts:119-138 | each of the four fields is the sum of the user's credits of that type in exactly that month; a type without credits in the month totals 0; when every credit names one of the four types, the four totals add up to the month's total |
| CreditService.AbsentTypeTotal | backend/src/services/accountCredit.service.ts:125-127 | the total of a type no credit has is 0 |
| CreditService.TypeTotalsCover | backend/src/services/accountCredit.service.ts:124-137 | the four type totals add up to the whole when every credit has one of the four types |
| CreditService.ApplyUpdate | backend/src/services/accountCredit.service.ts:96-99 | an update sets the fields it gives and keeps the others, the id and the owner |
| CreditService.Copies | backend/src/services/accountCredit.service.ts:157-169 | one copy per credit of the previous month |
| CreditService.CopiesAt | backend/src/services/accountCredit.service.ts:158-168 | copy i is credit i with the user, the new month and the i-th new id |
| CreditService.CopiesAreInMonth | backend/src/services/accountCredit.service.ts:159-167 | all copies are the user's credits of the new month |
| CreditService.CopiesAreNotInOtherMonths | backend/src/services/accountCredit.service.ts:165 | no copy is in any other month |
| CreditService.CopiesAmount | backend/src/services/accountCredit.service.ts:163 | the copies total what the previous month totals |
| CreditService.CopyingForwardRepeats | backend/src/services/accountCredit.service.ts:141-172 | after applying, the month holds its credits plus the copies and the previous month is unchanged |
| CreditService.CopiesShowAsInherited | backend/src/services/accountCredit.service.ts:141-172 | the copies read as current lines show the same lines as the inherited view |
| CreditService.ApplyMaterialisesInherited | backend/src/services/accountCredit.service.ts:141-172 | applying to an empty month leaves the lines it shows unchanged |
| CreditService.CopiesHaveFreshIds | backend/src/services/accountCredit.service.ts:157-169 | the copies' ids are new and distinct |
| CreditService.CreditStore.CreateAccountCredit | backend/src/services/accountCredit.service.ts:73-83 | the new credit, with the next id and the user, is appended |
| CreditService.CreditStore.UpdateAccountCredit | backend/src/services/accountCredit.service.ts:86-100 | nothing and no change for a credit the user does not own, else that credit updated in place |
| CreditService.CreditStore.DeleteAccountCredit | backend/src/services/accountCredit.service.ts:103-116 | nothing and no change for a credit the user does not own, else that credit removed and returned |
| CreditService.CreditStore.ApplyInheritedCredits | backend/src/services/accountCredit.service.ts:141-172 | the copies of the previous month's credits are appended and returned |
| ExpenseService.Select | backend/src/services/expense.service.ts:31-34 | exactly the rows that satisfy the conditions |
| ExpenseService.GetExpenses | backend/src/services/expense.service.ts:6-37 | exactly the user's expenses with the archive flag asked (unarchived by default), the category, account and payment type when given, and the search text in the name or the notes, without regard to case |
| ExpenseService.ContainsAt | backend/src/services/expense.service.ts:26-27 | the text contains the pattern exactly when the pattern occurs at some position |
| ExpenseService.FoldIdempotent | backend/src/services/expense.service.ts:26-27 | folding case twice is folding it once |
| ExpenseService.SearchIgnoresCase | backend/src/services/expense.service.ts:24-29 | a search and its case-folded form list the same expenses |
| ExpenseService.SelectFolded | backend/src/services/expense.service.ts:24-29 | selecting with a search or with its folded form gives the same rows |
| ExpenseService.ArchiveFilterPartitions | backend/src/services/expense.service.ts:9 | without filters an expense is listed exactly when not archived, with the archived filter exactly when archived |
| ExpenseService.IndexOfOwned | backend/src/services/expense.service.ts:66-71 | no position exactly when the user owns no expense with the id; otherwise a position of such an expense |
| ExpenseService.GetExpenseById | backend/src/services/expense.service.ts:40-49 | an expense of the user with the id, or nothing exactly when there is none |
| ExpenseService.OwnedCategories | backend/src/services/expense.service.ts:110-112 | exactly the categories of the user's expenses |
| ExpenseService.Distinct | backend/src/services/expense.service.ts:113 | the same values, without repeats |
| ExpenseService.GetCategories | backend/src/services/expense.service.ts:109-117 | exactly the categories of the user's expenses, archived ones included, each once |
| ExpenseService.ApplyUpdate | backend/src/services/expense.service.ts:77-80 | each field the update gives takes the given value, each absent field keeps its value; the id and the owner never change |
| ExpenseService.EmptyUpdateKeepsRow | backend/src/services/expense.service.ts:77-80 | an update that gives no field leaves the expense as it is |
| ExpenseService.UpdateIdempotent | backend/src/services/expense.service.ts:77-80 | applying the same update twice is applying it once |
| ExpenseService.ArchiveIsArchivedOnlyUpdate | backend/src/services/expense.service.ts:100-103 | archiving is the update that gives only `isArchived: true`, and archiving twice is archiving once |
| ExpenseService.ArchivingKeepsCategories | backend/src/services/expense.service.ts:109-117 | archiving an expense does not change the user's categories |
| ExpenseService.SameColumnsSameCategories | backend/src/services/expense.service.ts:110-112 | stores that agree on owners and categories row by row have the same categories |
| ExpenseService.ExpenseStore.CreateExpense | backend/src/services/expense.service.ts:52-61 | the new expense, with the next id and the user, unarchived, is appended; its id is new |
| ExpenseService.ExpenseStore.UpdateExpense | backend/src/services/expense.service.ts:64-83 | nothing and no change for an expense the user does not own, else that expense updated in place |
| ExpenseService.ExpenseStore.DeleteExpense | backend/src/services/expense.service.ts:86-106 | nothing and no change for an expense the user does not own, else that expense archived in place; no row is removed |
| SettingsService.InitialEmails | backend/src/services/settings.service.ts:39 | the user's e-mail alone when the user has a non-empty one, else no address |
| SettingsService.DefaultSettings | backend/src/services/settings.service.ts:32-41 | a new row: the user, ratios summing to 100 with the first person's larger, two different names, the initial addresses |
| SettingsService.Stored | backend/src/services/settings.service.ts:21-45 | a row belonging to the user: the stored row when there is one |
| SettingsService.StoredAfterRead | backend/src/services/settings.service.ts:21-45 | after a read has stored the row, reading again gives the same row, for this user and every other |
| SettingsService.Merge | backend/src/services/settings.service.ts:61-64 | each of the sixteen fields the update gives takes the given value, each absent one keeps its value; the owner never changes |
| SettingsService.MergeNothing | backend/src/services/settings.service.ts:61-64 | an update with no field leaves the row as it is |
| SettingsService.MergeKeepsAbsent | backend/src/services/settings.service.ts:61-64 | every field the update does not give keeps its value |
| SettingsService.MergeIdempotent | backend/src/services/settings.service.ts:61-64 | applying the same update twice is applying it once |
| SettingsService.AcceptedPairSumsTo100 | backend/src/services/settings.service.ts:50-55 | an accepted update giving both ratios leaves ratios that sum to 100 |
| SettingsService.SingleRatioUpdateCanBreakSum | backend/src/services/settings.service.ts:50-55 | an update giving one ratio is not checked: 70 over the default 60/40 leaves ratios summing to 110 |
| SettingsService.SettingsStore.GetSettings | backend/src/services/settings.service.ts:21-45 | the stored row, created with the defaults and stored when missing; an existing row is left alone |
| SettingsService.SettingsStore.UpdateSettings | backend/src/services/settings.service.ts:48-67 | two ratios not summing to 100 are refused with the message and no change; otherwise the row (created if missing) is updated and stored |
| SettingsController.BadEmails | backend/src/controllers/settings.controller.ts:12 | no issue exactly when every address is an e-mail |
| SettingsController.SettingsIssues | backend/src/controllers/settings.controller.ts:6-35 | no issue exactly when the update meets every condition of the schema |
| SettingsController.AcceptedUpdatePassesService | backend/src/controllers/settings.controller.ts:23-35 | an update the schema accepts passes the service's ratio check |
| SettingsController.RatioSumReportedOnFirstRatio | backend/src/controllers/settings.controller.ts:23-35 | ratios in range that do not sum to 100 give one issue, on the first ratio |
| SettingsController.AbortHidesRatioSum | backend/src/controllers/settings.controller.ts:20-35 | an assignment outside its enumeration hides a bad ratio sum |
| SettingsController.NegativeBalanceAccepted | backend/src/controllers/settings.controller.ts:13 | a negative balance is accepted |
| SettingsController.EmailAccepted | backend/src/controllers/settings.controller.ts:12 | `a@b.co` is an e-mail |
| SettingsController.EmailWithoutDotRefused | backend/src/controllers/settings.controller.ts:12 | `a@b` is not |
| SettingsController.UpdateStatus | backend/src/controllers/settings.controller.ts:61-70 | 200 exactly when nothing failed; 400 exactly for a validation error or the ratio message; otherwise 500 |
| SettingsController.GetSettings | backend/src/controllers/settings.controller.ts:39-50 | 200 with the stored row |
| SettingsController.UpdateSettings | backend/src/controllers/settings.controller.ts:53-71 | 400 and no change for an update the schema refuses; else 200 with the merged row, stored |
| ExpenseSchema.ParseCreateExpense | backend/src/models/expense.schema.ts:9-18 | accepted exactly when every required field is present and valid; the input carries the body's fields and drops the archive flag |
| ExpenseSchema.ParseUpdateExpense | backend/src/models/expense.schema.ts:21-31 | accepted exactly when each field given is valid |
| ExpenseSchema.ParseFilters | backend/src/models/expense.schema.ts:34-40 | accepted exactly when the two enumerations hold; the archive flag is true exactly for the text `true` |
| ExpenseSchema.CreateBodyIsFullUpdate | backend/src/models/expense.schema.ts:9-31 | a body accepted for creation is accepted as an update and sets exactly the created columns |
| ExpenseSchema.OtherArchiveSpellingsListUnarchived | backend/src/models/expense.schema.ts:38 | an archive flag other than `true` lists what no flag lists |
| ExpenseSchema.SchemaExpensesSkipLinesOfCredit | backend/src/models/expense.schema.ts:4 | expenses that passed the schema put nothing on either line of credit |
| IncomeController.ParseCreateIncome | backend/src/controllers/income.controller.ts:6-11 | accepted exactly when all four fields are present and valid |
| IncomeController.ParseUpdateIncome | backend/src/controllers/income.controller.ts:13-18 | accepted exactly when each field given is valid |
| IncomeController.CreateBodyIsFullUpdate | backend/src/controllers/income.controller.ts:6-18 | a body accepted for creation is accepted as an update and sets exactly the created columns |
| IncomeController.ApplyMonthIsPattern | backend/src/controllers/income.controller.ts:136-138 | the guard accepts exactly a given month matching `YYYY-MM` |
| IncomeController.ThirteenthMonthAccepted | backend/src/controllers/income.controller.ts:9 | month `2024-13` is accepted |
| IncomeController.SlashMonthRefused | backend/src/controllers/income.controller.ts:136 | `2024/03` is refused |
| IncomeController.GetIncomeByIdReply | backend/src/controllers/income.controller.ts:37-53 | 404 exactly when the user owns no row with the id, else 200 with that row |
| IncomeController.CreateIncome | backend/src/controllers/income.controller.ts:56-71 | 400 and no change for a refused body, else 201 with the stored row |
| IncomeController.UpdateIncome | backend/src/controllers/income.controller.ts:74-94 | 400 for a refused body, 404 for a row not owned, both without change; else 200 with the updated row |
| IncomeController.DeleteIncome | backend/src/controllers/income.controller.ts:97-113 | 404 and no change for a row not owned, else 200 with the removed row |
| IncomeController.ApplyInheritedIncome | backend/src/controllers/income.controller.ts:131-150 | 400 and no change for a missing or malformed month, else 201 with the copies made |
| CreditController.ParseCreateCredit | backend/src/controllers/accountCredit.controller.ts:6-11 | accepted exactly when all four fields are present and valid |
| CreditController.ParseUpdateCredit | backend/src/controllers/accountCredit.controller.ts:13-18 | accepted exactly when each field given is valid |
| CreditController.CreateBodyIsFullUpdate | backend/src/controllers/accountCredit.controller.ts:6-18 | a body accepted for creation is accepted as an update and sets exactly the created columns |
| CreditController.CreditTypesExtendExpenseTypes | backend/src/controllers/accountCredit.controller.ts:9 | every expense account type is a credit type, and the two lines of credit are credit types only |
| CreditController.AcceptedCreditsAreAllCounted | backend/src/controllers/accountCredit.controller.ts:9 | when all credits passed the schema, the four type totals add up to the month's total |
| CreditController.GetCreditByIdReply | backend/src/controllers/accountCredit.controller.ts:37-53 | 404 exactly when the user owns no credit with the id, else 200 with it |
| CreditController.CreateAccountCredit | backend/src/controllers/accountCredit.controller.ts:56-71 | 400 and no change for a refused body, else 201 with the stored credit |
| CreditController.UpdateAccountCredit | backend/src/controllers/accountCredit.controller.ts:74-94 | 400 for a refused body, 404 for a credit not owned, both without change; else 200 with the updated credit |
| CreditController.DeleteAccountCredit | backend/src/controllers/accountCredit.controller.ts:97-113 | 404 and no change for a credit not owned, else 200 with the removed credit |
| ExpenseForm.SortAscending | frontend/src/pages/ExpenseForm.tsx:104 | the array ends sorted ascending and holds the same elements |
| ExpenseForm.IndexOf | frontend/src/pages/ExpenseForm.tsx:93 | -1 exactly when the month is absent, else its first position |
| ExpenseForm.ToggleMonths | frontend/src/pages/ExpenseForm.tsx:91-104 | the result is sorted and holds the months with one occurrence of the month removed when present, added when absent |
| ExpenseForm.SortedUnique | frontend/src/pages/ExpenseForm.tsx:104 | two sorted lists with the same elements are equal |
| ExpenseForm.ToggleTwiceRestores | frontend/src/pages/ExpenseForm.tsx:91-107 | on a sorted list without repeats, toggling a month twice gives the list back |
| ExpenseForm.ToggleKeepsNoDuplicates | frontend/src/pages/ExpenseForm.tsx:92-104 | toggling keeps a list without repeats free of repeats |
| ExpenseForm.Apply | frontend/src/pages/ExpenseForm.tsx:76-82 | the named field takes the value; choosing monthly selects all twelve months; no other field changes |
| ExpenseForm.MonthlyKeepsAllMonths | frontend/src/pages/ExpenseForm.tsx:79-82 | a monthly expense with all months keeps them through every change but one of the months |
| ExpenseForm.ClearedError | frontend/src/pages/ExpenseForm.tsx:86-88 | the changed field's error is emptied; no other entry changes and none is added |
| ExpenseForm.TrimStart | frontend/src/pages/ExpenseForm.tsx:112 | drops exactly the leading white space |
| ExpenseForm.TrimEnd | frontend/src/pages/ExpenseForm.tsx:112 | drops exactly the trailing white space |
| ExpenseForm.Trim | frontend/src/pages/ExpenseForm.tsx:112 | empty exactly when the text is all white space; otherwise it starts and ends with another character |
| ExpenseForm.ErrorsFor | frontend/src/pages/ExpenseForm.tsx:109-128 | an entry for each failed check and for nothing else, each holding its own problem: name required, category required, amount not positive, no month selected |
| ExpenseForm.ValidationErrors | frontend/src/pages/ExpenseForm.tsx:109-128 | an error on the name or the category exactly when it is blank once trimmed, on the amount exactly when not positive, on the months exactly when a non-monthly expense has none; each entry holds the problem of its field |
| ExpenseForm.ValidationErrorsEmptyIff | frontend/src/pages/ExpenseForm.tsx:109-131 | no error exactly when the form may be sent |
| ExpenseForm.NoBreakSpaceNameRefused | frontend/src/pages/ExpenseForm.tsx:112-114 | a name of no-break spaces is refused |
| ExpenseForm.MonthlyNeedsNoMonths | frontend/src/pages/ExpenseForm.tsx:125-127 | a monthly expense needs no month selected |
| ExpenseForm.CollectErrors | frontend/src/pages/ExpenseForm.tsx:110-128 | the record filled check by check is the errors of the checks |
| ExpenseForm.ExpenseFormState.constructor | frontend/src/pages/ExpenseForm.tsx:35-45 | the initial form and no errors |
| ExpenseForm.ExpenseFormState.HandleChange | frontend/src/pages/ExpenseForm.tsx:76-89 | the data after the change and the field's error cleared |
| ExpenseForm.ExpenseFormState.HandleMonthToggle | frontend/src/pages/ExpenseForm.tsx:91-107 | only the months change, to the toggled sorted list, which keeps a list free of repeats; the months' error is cleared |
| ExpenseForm.ExpenseFormState.Validate | frontend/src/pages/ExpenseForm.tsx:109-131 | the errors become those of the data, and the answer is whether the form may be sent |
| Layout.IsActive | frontend/src/components/Layout.tsx:19-21 | the location is the link's page, or the page followed by a slash and more |
| Layout.DashboardHighlighted | frontend/src/components/Layout.tsx:42 | exactly the location `/` |
| Layout.SubPageIsActive | frontend/src/components/Layout.tsx:20 | a page below the link's page makes the link current |
| Layout.SharedPrefixIsNotActive | frontend/src/components/Layout.tsx:20 | a shared prefix without a slash after it does not |
| Layout.ExpensesXIsNotExpenses | frontend/src/components/Layout.tsx:51 | `/expensesX` does not highlight the Expenses link |
| Layout.DashboardTestMattersOnlyForDoubleSlash | frontend/src/components/Layout.tsx:42 | the extra test on `/` changes the outcome only for locations starting with `//` |

## Left out

- The database. Queries, their ordering (`orderBy`) and the parallel fetches and creates (`Promise.all`) are not modelled. Each store is a sequence or a map in memory, and result order is not specified.
- Copies of the previous month are appended one after the other. They are not created in parallel.
- Floating point. Amounts and ratios are `real`, and IEEE rounding is not modelled.
- Authentication and the JWT and OAuth plumbing. The user id is a parameter.
- HTTP wiring, routes and `calculation.controller.ts`. Thrown store errors (the 500 answers) are not modelled.
- The `getIncome`, `getAccountCredits` and `getMonthSummary` handlers. They only pass the service's answer on.
- The route `/apply-all-inherited` of `routes/income.ts`, whose handler `applyAllInherited` the income controller does not define.
- The handlers of `expense.controller.ts`. That file is not part of this model; only its schemas are.
- UI rendering, the frontend HTTP clients, and the other pages.
- Loading an expense into the form for editing (`fetchExpense`) and sending it (`handleSubmit`). They are network calls; the check made before sending is `Validate`.
- The number parsing of the amount input (`parseFloat(...) || 0`). The form's amount is a number already.
- Case-insensitive search folds ASCII letters only. Unicode case folding is not modelled.
- String lengths count characters, not UTF-16 code units.
- Issues of the settings schema are reported by field path. The index inside the e-mail array and the message texts are not modelled.
- The database column defaults of a new settings row (balances 0 and the like) are a constructor parameter of the store. The database schema is not part of this model.
- Months.PreviousMonth: requires a text of the form `YYYY-MM`. The date arithmetic on non-numeric text (NaN) is not modelled.
- IncomeService.GetIncome: requires a month of the form `YYYY-MM` when one is given, because the previous month is only defined for that form. A malformed month is not handled.
- CreditService.GetAccountCredits: requires a month of the form `YYYY-MM` when one is given, for the same reason.
- IncomeService.IncomeStore.ApplyInheritedIncome: requires a month of the form `YYYY-MM`. The only caller, the controller, checks this first.
- CreditService.CreditStore.ApplyInheritedCredits: requires a month of the form `YYYY-MM`. No handler or route in the repository calls `applyInheritedCredits`, so no caller is seen to check the month.
- Calculation.GetMonthCalculations: requires a month of the form `YYYY-MM`, so that the month number can be parsed.
- IncomeService.Copies: its contract states only the number of copies. Their content is stated by `CopiesAt` and the lemmas after it.
- CreditService.Copies: its contract states only the number of copies. Their content is stated by `CopiesAt` and the lemmas after it.
- The form's error messages are an enumeration of the four problems, each rendered by `Problem.Text`. An entry emptied by the change handler is `Cleared`.
