/** The income controller (`income.controller.ts`): the validation schemas of
    a new income row and of an update, the month check of the rollover
    endpoint, and the handlers that turn what the service returns into a
    status.

    A body is given with every field optional (`IncomeService.IncomeUpdate`),
    so that a missing required field can be told apart; parsing yields the
    typed input or nothing, nothing standing for the schema's validation
    error. */
module IncomeController {
  import opened Records
  import opened Http
  import Months
  import IncomeService

  predicate IsPaymentPeriod(s: string) {
    s == "part1" || s == "part2"
  }

  /** The conditions on the fields a body gives: a non-empty name, a positive
      amount, a month of the form `YYYY-MM` (the month number itself is not
      checked) and one of the two pay periods. */
  predicate PresentFieldsValid(b: IncomeService.IncomeUpdate) {
    && (b.personName.Some? ==> |b.personName.value| >= 1)
    && (b.amount.Some? ==> b.amount.value > 0.0)
    && (b.month.Some? ==> Months.IsMonthFormat(b.month.value))
    && (b.paymentPeriod.Some? ==> IsPaymentPeriod(b.paymentPeriod.value))
  }

  predicate RequiredFieldsPresent(b: IncomeService.IncomeUpdate) {
    b.personName.Some? && b.amount.Some? && b.month.Some? && b.paymentPeriod.Some?
  }

  /** `createIncomeSchema.parse`. */
  function ParseCreateIncome(b: IncomeService.IncomeUpdate): (r: Option<IncomeService.IncomeInput>)
    ensures r.Some? <==> RequiredFieldsPresent(b) && PresentFieldsValid(b)
    ensures r.Some? ==> r.value == IncomeService.IncomeInput(b.personName.value, b.amount.value, b.month.value,
                                                             b.paymentPeriod.value)
  {
    if RequiredFieldsPresent(b) && PresentFieldsValid(b) then
      Some(IncomeService.IncomeInput(b.personName.value, b.amount.value, b.month.value, b.paymentPeriod.value))
    else None
  }

  /** `updateIncomeSchema.parse`: the body itself when each field it gives
      meets the condition of creation. */
  function ParseUpdateIncome(b: IncomeService.IncomeUpdate): (r: Option<IncomeService.IncomeUpdate>)
    ensures r.Some? <==> PresentFieldsValid(b)
    ensures r.Some? ==> r.value == b
  {
    if PresentFieldsValid(b) then Some(b) else None
  }

  /** The guard of `applyInheritedIncome`: the month must be given, non-empty,
      and of the form `YYYY-MM`. */
  predicate ApplyMonthAccepted(month: Option<string>) {
    IncomeService.MonthGiven(month) && Months.IsMonthFormat(month.value)
  }

  // ---------------------------------------------------------------------------
  // Lemmas about the checks

  /** The empty-string test of the guard is subsumed by the pattern: the
      month is accepted exactly when it is given and matches. */
  lemma ApplyMonthIsPattern(month: Option<string>)
    ensures ApplyMonthAccepted(month) <==> month.Some? && Months.IsMonthFormat(month.value)
  {
  }

  /** A body that creation accepts is also accepted as an update, and
      updating any row with it sets exactly the created columns. */
  lemma CreateBodyIsFullUpdate(b: IncomeService.IncomeUpdate, x: Income)
    requires ParseCreateIncome(b).Some?
    ensures ParseUpdateIncome(b) == Some(b)
    ensures var input := ParseCreateIncome(b).value;
            IncomeService.ApplyUpdate(x, b)
            == Income(x.id, x.userId, input.personName, input.amount, input.month, input.paymentPeriod)
  {
  }

  /** The month pattern does not look at the month number: a thirteenth month
      is accepted. */
  lemma ThirteenthMonthAccepted()
    ensures ParseCreateIncome(IncomeService.IncomeUpdate(Some("Ann"), Some(100.0), Some("2024-13"), Some("part1"))).Some?
  {
    var m := "2024-13";
    assert m[..4] == "2024" && m[5..] == "13";
  }

  /** A month in the other common spelling, `YYYY/MM`, is refused. */
  lemma SlashMonthRefused()
    ensures !ApplyMonthAccepted(Some("2024/03"))
  {
    assert "2024/03"[4] == '/';
  }

  // ---------------------------------------------------------------------------
  // Handlers

  /** `getIncomeById`: 404 when the user owns no row with that id, else 200
      with the row. */
  function GetIncomeByIdReply(records: seq<Income>, userId: string, id: nat): (reply: (int, Option<Income>))
    ensures reply.0 == NotFound <==> forall x :: x in records ==> !(x.id == id && x.userId == userId)
    ensures reply.0 != NotFound ==> reply.0 == OK && reply.1.Some? && reply.1.value in records
                                    && reply.1.value.id == id && reply.1.value.userId == userId
  {
    var income := IncomeService.GetIncomeById(records, userId, id);
    if income.None? then (NotFound, None) else (OK, income)
  }

  /** `createIncome`: 400 and no change for a body the schema refuses, else
      201 with the stored row. */
  method CreateIncome(store: IncomeService.IncomeStore, userId: string, body: IncomeService.IncomeUpdate)
    returns (status: int, income: Option<Income>)
    requires store.Valid()
    modifies store
    ensures store.Valid()
    ensures ParseCreateIncome(body).None? ==>
              status == BadRequest && income.None? && store.records == old(store.records)
              && store.nextId == old(store.nextId)
    ensures ParseCreateIncome(body).Some? ==>
              var data := ParseCreateIncome(body).value;
              && status == Created
              && income == Some(Income(old(store.nextId), userId, data.personName, data.amount, data.month,
                                       data.paymentPeriod))
              && store.records == old(store.records) + [income.value]
  {
    var data := ParseCreateIncome(body);
    if data.None? {
      return BadRequest, None;
    }
    var created := store.CreateIncome(userId, data.value);
    return Created, Some(created);
  }

  /** `updateIncome`: 400 for a body the schema refuses, 404 when the user
      owns no row with that id, both without change; else 200 with the
      updated row. */
  method UpdateIncome(store: IncomeService.IncomeStore, userId: string, id: nat, body: IncomeService.IncomeUpdate)
    returns (status: int, income: Option<Income>)
    requires store.Valid()
    modifies store
    ensures store.Valid() && store.nextId == old(store.nextId)
    ensures ParseUpdateIncome(body).None? ==> status == BadRequest && store.records == old(store.records)
    ensures ParseUpdateIncome(body).Some? && IncomeService.GetIncomeById(old(store.records), userId, id).None? ==>
              status == NotFound && income.None? && store.records == old(store.records)
    ensures ParseUpdateIncome(body).Some? && IncomeService.GetIncomeById(old(store.records), userId, id).Some? ==>
              var k := IncomeService.IndexOfOwned(old(store.records), userId, id).value;
              && status == OK
              && income == Some(IncomeService.ApplyUpdate(old(store.records)[k], body))
              && store.records == old(store.records)[k := income.value]
  {
    var data := ParseUpdateIncome(body);
    if data.None? {
      return BadRequest, None;
    }
    income := store.UpdateIncome(userId, id, data.value);
    status := if income.None? then NotFound else OK;
  }

  /** `deleteIncome`: 404 and no change when the user owns no row with that
      id; else 200 with the removed row. */
  method DeleteIncome(store: IncomeService.IncomeStore, userId: string, id: nat)
    returns (status: int, income: Option<Income>)
    requires store.Valid()
    modifies store
    ensures store.Valid() && store.nextId == old(store.nextId)
    ensures IncomeService.GetIncomeById(old(store.records), userId, id).None? ==>
              status == NotFound && income.None? && store.records == old(store.records)
    ensures IncomeService.GetIncomeById(old(store.records), userId, id).Some? ==>
              var k := IncomeService.IndexOfOwned(old(store.records), userId, id).value;
              && status == OK
              && income == Some(old(store.records)[k])
              && store.records == old(store.records)[..k] + old(store.records)[k + 1..]
  {
    income := store.DeleteIncome(userId, id);
    status := if income.None? then NotFound else OK;
  }

  /** `applyInheritedIncome`: 400 without calling the service when the month
      is missing or malformed; else 201 with the copies the service made. */
  method ApplyInheritedIncome(store: IncomeService.IncomeStore, userId: string, month: Option<string>)
    returns (status: int, created: seq<Income>)
    requires store.Valid()
    modifies store
    ensures store.Valid()
    ensures !ApplyMonthAccepted(month) ==>
              status == BadRequest && created == [] && store.records == old(store.records)
              && store.nextId == old(store.nextId)
    ensures ApplyMonthAccepted(month) ==>
              var prev := IncomeService.OfUserInMonth(old(store.records), userId, Months.PreviousMonth(month.value));
              && status == Created
              && created == IncomeService.Copies(prev, userId, month.value, old(store.nextId))
              && store.records == old(store.records) + created
  {
    if !ApplyMonthAccepted(month) {
      return BadRequest, [];
    }
    created := store.ApplyInheritedIncome(userId, month.value);
    status := Created;
  }
}
