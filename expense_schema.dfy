/** The validation schemas of the expense endpoints (`expense.schema.ts`):
    creation, partial update and the query filters of the list.

    A body is given with every field optional (`ExpenseService.ExpenseUpdate`),
    so that a missing required field can be told apart; parsing yields the
    typed input or nothing, nothing standing for the schema's validation
    error. The enumeration of account types here has two values, while the
    credits and the calculation know four. */
module ExpenseSchema {
  import opened Records
  import ExpenseService
  import Calculation

  predicate IsSchemaAccountType(s: string) {
    s == "checking" || s == "credit_card"
  }

  predicate IsPaymentType(s: string) {
    s == "automatic" || s == "manual"
  }

  predicate IsFrequency(s: string) {
    s == "monthly" || s == "quarterly" || s == "yearly" || s == "custom"
  }

  predicate IsValidName(s: string) {
    1 <= |s| <= 255
  }

  /** At least one month, each a number from 1 to 12; whole numbers are not
      required. */
  predicate IsValidMonths(ms: seq<real>) {
    |ms| >= 1 && forall i :: 0 <= i < |ms| ==> 1.0 <= ms[i] <= 12.0
  }

  /** The conditions on the fields a body gives; absent fields are not
      checked. */
  predicate PresentFieldsValid(b: ExpenseService.ExpenseUpdate) {
    && (b.name.Some? ==> IsValidName(b.name.value))
    && (b.category.Some? ==> |b.category.value| >= 1)
    && (b.amount.Some? ==> b.amount.value > 0.0)
    && (b.accountType.Some? ==> IsSchemaAccountType(b.accountType.value))
    && (b.paymentType.Some? ==> IsPaymentType(b.paymentType.value))
    && (b.frequency.Some? ==> IsFrequency(b.frequency.value))
    && (b.activeMonths.Some? ==> IsValidMonths(b.activeMonths.value))
  }

  predicate RequiredFieldsPresent(b: ExpenseService.ExpenseUpdate) {
    && b.name.Some? && b.category.Some? && b.amount.Some? && b.accountType.Some?
    && b.paymentType.Some? && b.frequency.Some? && b.activeMonths.Some?
  }

  /** `createExpenseSchema.parse`: the input when every required field is
      present and meets its condition. Notes stay optional; an `isArchived`
      in the body is not part of the schema and is dropped. */
  function ParseCreateExpense(b: ExpenseService.ExpenseUpdate): (r: Option<ExpenseService.ExpenseInput>)
    ensures r.Some? <==> RequiredFieldsPresent(b) && PresentFieldsValid(b)
    ensures r.Some? ==>
              && r.value.name == b.name.value && r.value.category == b.category.value
              && r.value.amount == b.amount.value && r.value.accountType == b.accountType.value
              && r.value.paymentType == b.paymentType.value && r.value.frequency == b.frequency.value
              && r.value.activeMonths == b.activeMonths.value && r.value.notes == b.notes
  {
    if RequiredFieldsPresent(b) && PresentFieldsValid(b) then
      Some(ExpenseService.ExpenseInput(b.name.value, b.category.value, b.amount.value, b.accountType.value,
                                       b.paymentType.value, b.frequency.value, b.activeMonths.value, b.notes))
    else None
  }

  /** `updateExpenseSchema.parse`: the body itself when each field it gives
      meets the condition of creation; `isArchived` may be given too. */
  function ParseUpdateExpense(b: ExpenseService.ExpenseUpdate): (r: Option<ExpenseService.ExpenseUpdate>)
    ensures r.Some? <==> PresentFieldsValid(b)
    ensures r.Some? ==> r.value == b
  {
    if PresentFieldsValid(b) then Some(b) else None
  }

  /** The filters as the query string gives them. */
  datatype RawFilters = RawFilters(
    category: Option<string>,
    accountType: Option<string>,
    paymentType: Option<string>,
    isArchived: Option<string>,
    search: Option<string>)

  /** `expenseFiltersSchema.parse`: the two enumerations are checked, and the
      archive flag becomes `true` for the text `"true"` and `false` for any
      other text. */
  function ParseFilters(q: RawFilters): (r: Option<ExpenseService.ExpenseFilters>)
    ensures r.Some? <==> (q.accountType.Some? ==> IsSchemaAccountType(q.accountType.value))
                         && (q.paymentType.Some? ==> IsPaymentType(q.paymentType.value))
    ensures r.Some? ==> (r.value.isArchived.Some? <==> q.isArchived.Some?)
    ensures r.Some? ==> (r.value.isArchived == Some(true) <==> q.isArchived == Some("true"))
  {
    if (q.accountType.Some? ==> IsSchemaAccountType(q.accountType.value))
       && (q.paymentType.Some? ==> IsPaymentType(q.paymentType.value))
    then
      Some(ExpenseService.ExpenseFilters(
             q.category, q.accountType, q.paymentType,
             if q.isArchived.Some? then Some(q.isArchived.value == "true") else None,
             q.search))
    else None
  }

  // ---------------------------------------------------------------------------
  // Lemmas

  /** A body that creation accepts is also accepted as an update, and
      updating any expense with it sets exactly the created columns. */
  lemma CreateBodyIsFullUpdate(b: ExpenseService.ExpenseUpdate, e: Expense)
    requires ParseCreateExpense(b).Some?
    ensures ParseUpdateExpense(b) == Some(b)
    ensures var input := ParseCreateExpense(b).value;
            var u := ExpenseService.ApplyUpdate(e, b.(isArchived := None));
            u == Expense(e.id, e.userId, input.name, input.category, input.amount, input.accountType,
                         input.paymentType, input.frequency, input.activeMonths,
                         if input.notes.Some? then input.notes else e.notes, e.isArchived)
  {
  }

  /** Any spelling of the archive flag other than `"true"` lists the
      expenses that are not archived, as if the flag were absent. */
  lemma OtherArchiveSpellingsListUnarchived(records: seq<Expense>, userId: string, q: RawFilters)
    requires ParseFilters(q).Some? && q.isArchived.Some? && q.isArchived.value != "true"
    ensures ExpenseService.GetExpenses(records, userId, ParseFilters(q).value)
            == ExpenseService.GetExpenses(records, userId, ParseFilters(q.(isArchived := None)).value)
  {
    assert ExpenseService.BuildWhere(userId, ParseFilters(q).value)
        == ExpenseService.BuildWhere(userId, ParseFilters(q.(isArchived := None)).value);
  }

  /** Expenses that passed the schema are on the checking or the credit card
      account, so the line-of-credit and student-line-of-credit totals of a
      month's calculation are zero. */
  lemma SchemaExpensesSkipLinesOfCredit(expenses: seq<Expense>, month: int)
    requires forall i :: 0 <= i < |expenses| ==> IsSchemaAccountType(expenses[i].accountType)
    ensures Calculation.AccountTotalOf(expenses, LineOfCredit, month) == Calculation.Totals(0.0, 0.0, 0.0)
    ensures Calculation.AccountTotalOf(expenses, StudentLineOfCredit, month) == Calculation.Totals(0.0, 0.0, 0.0)
  {
    Calculation.IgnoredExpensesAddNothing(expenses, LineOfCredit, month, Calculation.AllPayments);
    Calculation.IgnoredExpensesAddNothing(expenses, LineOfCredit, month, Calculation.AutomaticPayments);
    Calculation.IgnoredExpensesAddNothing(expenses, LineOfCredit, month, Calculation.ManualPayments);
    Calculation.IgnoredExpensesAddNothing(expenses, StudentLineOfCredit, month, Calculation.AllPayments);
    Calculation.IgnoredExpensesAddNothing(expenses, StudentLineOfCredit, month, Calculation.AutomaticPayments);
    Calculation.IgnoredExpensesAddNothing(expenses, StudentLineOfCredit, month, Calculation.ManualPayments);
  }
}
