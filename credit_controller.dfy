/** The account-credit controller (`accountCredit.controller.ts`): the
    validation schemas of a new credit and of an update, and the handlers that
    turn what the service returns into a status.

    A body is given with every field optional (`CreditService.CreditUpdate`),
    so that a missing required field can be told apart; parsing yields the
    typed input or nothing, nothing standing for the schema's validation
    error. The account types accepted here are all four of the calculation,
    where the expense schema accepts two. */
module CreditController {
  import opened Records
  import opened Http
  import Months
  import CreditService
  import ExpenseSchema

  /** The conditions on the fields a body gives: a non-empty description, a
      positive amount, one of the four account types and a month of the form
      `YYYY-MM`. */
  predicate PresentFieldsValid(b: CreditService.CreditUpdate) {
    && (b.description.Some? ==> |b.description.value| >= 1)
    && (b.amount.Some? ==> b.amount.value > 0.0)
    && (b.accountType.Some? ==> IsAccountTypeName(b.accountType.value))
    && (b.month.Some? ==> Months.IsMonthFormat(b.month.value))
  }

  predicate RequiredFieldsPresent(b: CreditService.CreditUpdate) {
    b.description.Some? && b.amount.Some? && b.accountType.Some? && b.month.Some?
  }

  /** `createAccountCreditSchema.parse`. */
  function ParseCreateCredit(b: CreditService.CreditUpdate): (r: Option<CreditService.CreditInput>)
    ensures r.Some? <==> RequiredFieldsPresent(b) && PresentFieldsValid(b)
    ensures r.Some? ==> r.value == CreditService.CreditInput(b.description.value, b.amount.value,
                                                             b.accountType.value, b.month.value)
  {
    if RequiredFieldsPresent(b) && PresentFieldsValid(b) then
      Some(CreditService.CreditInput(b.description.value, b.amount.value, b.accountType.value, b.month.value))
    else None
  }

  /** `updateAccountCreditSchema.parse`: the body itself when each field it
      gives meets the condition of creation. */
  function ParseUpdateCredit(b: CreditService.CreditUpdate): (r: Option<CreditService.CreditUpdate>)
    ensures r.Some? <==> PresentFieldsValid(b)
    ensures r.Some? ==> r.value == b
  {
    if PresentFieldsValid(b) then Some(b) else None
  }

  // ---------------------------------------------------------------------------
  // Lemmas about the schemas

  /** A body that creation accepts is also accepted as an update, and
      updating any credit with it sets exactly the created columns. */
  lemma CreateBodyIsFullUpdate(b: CreditService.CreditUpdate, x: AccountCredit)
    requires ParseCreateCredit(b).Some?
    ensures ParseUpdateCredit(b) == Some(b)
    ensures var input := ParseCreateCredit(b).value;
            CreditService.ApplyUpdate(x, b)
            == AccountCredit(x.id, x.userId, input.description, input.amount, input.accountType, input.month)
  {
  }

  /** Every account type of the expense schema is accepted for a credit, and
      the two lines of credit are accepted only for a credit. */
  lemma CreditTypesExtendExpenseTypes(s: string)
    ensures ExpenseSchema.IsSchemaAccountType(s) ==> IsAccountTypeName(s)
    ensures IsAccountTypeName(LineOfCredit.Name()) && !ExpenseSchema.IsSchemaAccountType(LineOfCredit.Name())
    ensures IsAccountTypeName(StudentLineOfCredit.Name())
            && !ExpenseSchema.IsSchemaAccountType(StudentLineOfCredit.Name())
  {
  }

  /** When every credit of a month came through the schema, the four per-type
      totals of the month add up to the month's total. */
  lemma AcceptedCreditsAreAllCounted(records: seq<AccountCredit>, userId: string, month: string)
    requires forall x :: x in records ==> ParseCreateCredit(
               CreditService.CreditUpdate(Some(x.description), Some(x.amount), Some(x.accountType), Some(x.month))).Some?
    ensures var t := CreditService.TotalCreditsByAccount(records, userId, month);
            t.checking + t.creditCard + t.lineOfCredit + t.studentLineOfCredit
            == CreditService.AmountSum(CreditService.OfUserInMonth(records, userId, month))
  {
    forall x | x in records
      ensures IsAccountTypeName(x.accountType)
    {
      var b := CreditService.CreditUpdate(Some(x.description), Some(x.amount), Some(x.accountType), Some(x.month));
      assert ParseCreateCredit(b).Some?;
    }
  }

  // ---------------------------------------------------------------------------
  // Handlers

  /** `getAccountCreditById`: 404 when the user owns no credit with that id,
      else 200 with the credit. */
  function GetCreditByIdReply(records: seq<AccountCredit>, userId: string, id: nat): (reply: (int, Option<AccountCredit>))
    ensures reply.0 == NotFound <==> forall x :: x in records ==> !(x.id == id && x.userId == userId)
    ensures reply.0 != NotFound ==> reply.0 == OK && reply.1.Some? && reply.1.value in records
                                    && reply.1.value.id == id && reply.1.value.userId == userId
  {
    var credit := CreditService.GetAccountCreditById(records, userId, id);
    if credit.None? then (NotFound, None) else (OK, credit)
  }

  /** `createAccountCredit`: 400 and no change for a body the schema refuses,
      else 201 with the stored credit. */
  method CreateAccountCredit(store: CreditService.CreditStore, userId: string, body: CreditService.CreditUpdate)
    returns (status: int, credit: Option<AccountCredit>)
    requires store.Valid()
    modifies store
    ensures store.Valid()
    ensures ParseCreateCredit(body).None? ==>
              status == BadRequest && credit.None? && store.records == old(store.records)
              && store.nextId == old(store.nextId)
    ensures ParseCreateCredit(body).Some? ==>
              var data := ParseCreateCredit(body).value;
              && status == Created
              && credit == Some(AccountCredit(old(store.nextId), userId, data.description, data.amount,
                                              data.accountType, data.month))
              && store.records == old(store.records) + [credit.value]
  {
    var data := ParseCreateCredit(body);
    if data.None? {
      return BadRequest, None;
    }
    var created := store.CreateAccountCredit(userId, data.value);
    return Created, Some(created);
  }

  /** `updateAccountCredit`: 400 for a body the schema refuses, 404 when the
      user owns no credit with that id, both without change; else 200 with the
      updated credit. */
  method UpdateAccountCredit(store: CreditService.CreditStore, userId: string, id: nat,
                             body: CreditService.CreditUpdate)
    returns (status: int, credit: Option<AccountCredit>)
    requires store.Valid()
    modifies store
    ensures store.Valid() && store.nextId == old(store.nextId)
    ensures ParseUpdateCredit(body).None? ==> status == BadRequest && store.records == old(store.records)
    ensures ParseUpdateCredit(body).Some? && CreditService.GetAccountCreditById(old(store.records), userId, id).None? ==>
              status == NotFound && credit.None? && store.records == old(store.records)
    ensures ParseUpdateCredit(body).Some? && CreditService.GetAccountCreditById(old(store.records), userId, id).Some? ==>
              var k := CreditService.IndexOfOwned(old(store.records), userId, id).value;
              && status == OK
              && credit == Some(CreditService.ApplyUpdate(old(store.records)[k], body))
              && store.records == old(store.records)[k := credit.value]
  {
    var data := ParseUpdateCredit(body);
    if data.None? {
      return BadRequest, None;
    }
    credit := store.UpdateAccountCredit(userId, id, data.value);
    status := if credit.None? then NotFound else OK;
  }

  /** `deleteAccountCredit`: 404 and no change when the user owns no credit
      with that id; else 200 with the removed credit. */
  method DeleteAccountCredit(store: CreditService.CreditStore, userId: string, id: nat)
    returns (status: int, credit: Option<AccountCredit>)
    requires store.Valid()
    modifies store
    ensures store.Valid() && store.nextId == old(store.nextId)
    ensures CreditService.GetAccountCreditById(old(store.records), userId, id).None? ==>
              status == NotFound && credit.None? && store.records == old(store.records)
    ensures CreditService.GetAccountCreditById(old(store.records), userId, id).Some? ==>
              var k := CreditService.IndexOfOwned(old(store.records), userId, id).value;
              && status == OK
              && credit == Some(old(store.records)[k])
              && store.records == old(store.records)[..k] + old(store.records)[k + 1..]
  {
    credit := store.DeleteAccountCredit(userId, id);
    status := if credit.None? then NotFound else OK;
  }
}
