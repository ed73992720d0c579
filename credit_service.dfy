/** The account-credit service (`accountCredit.service.ts`): a per-user,
    per-month store of credits to the four accounts, the read that falls back to
    the previous month's credits ("inherited" credits), the per-account totals
    of a month, and the operation that copies the previous month's credits
    forward. It follows the income service row for row.

    The relational store is the class `CreditStore`, holding every user's rows
    in a sequence; reads are functions of that sequence. Result order is the
    store's order (the service's `orderBy` is not modelled). */
module CreditService {
  import opened Records
  import Months

  datatype CreditInput = CreditInput(description: string, amount: real, accountType: string, month: string)

  /** A partial update: `None` leaves the column as it is. */
  datatype CreditUpdate = CreditUpdate(
    description: Option<string>, amount: Option<real>, accountType: Option<string>, month: Option<string>)

  /** A credit as `getAccountCredits` returns it, with its inheritance marks. */
  datatype CreditView = CreditView(credit: AccountCredit, isInherited: bool, originalMonth: Option<string>)

  /** The result of `getTotalCreditsByAccount`. */
  datatype CreditTotals = CreditTotals(checking: real, creditCard: real, lineOfCredit: real, studentLineOfCredit: real)
  {
    function For(t: AccountType): real {
      match t
      case Checking => checking
      case CreditCard => creditCard
      case LineOfCredit => lineOfCredit
      case StudentLineOfCredit => studentLineOfCredit
    }
  }

  /** The optional `month` argument counts as given only when it is a non-empty
      string, as JavaScript's truthiness test has it. */
  predicate MonthGiven(month: Option<string>) {
    month.Some? && month.value != ""
  }

  // ---------------------------------------------------------------------------
  // Reads

  /** The rows of one user, in store order. */
  function OfUser(records: seq<AccountCredit>, userId: string): (r: seq<AccountCredit>)
    ensures forall x :: x in r <==> x in records && x.userId == userId
  {
    if records == [] then []
    else
      var last := records[|records| - 1];
      assert records == records[..|records| - 1] + [last];
      var rest := OfUser(records[..|records| - 1], userId);
      if last.userId == userId then rest + [last] else rest
  }

  /** The rows of one user in one exact month, in store order. */
  function OfUserInMonth(records: seq<AccountCredit>, userId: string, month: string): (r: seq<AccountCredit>)
    ensures forall x :: x in r <==> x in records && x.userId == userId && x.month == month
  {
    if records == [] then []
    else
      var last := records[|records| - 1];
      assert records == records[..|records| - 1] + [last];
      var rest := OfUserInMonth(records[..|records| - 1], userId, month);
      if last.userId == userId && last.month == month then rest + [last] else rest
  }

  function AmountSum(rs: seq<AccountCredit>): real {
    if rs == [] then 0.0 else AmountSum(rs[..|rs| - 1]) + rs[|rs| - 1].amount
  }

  /** Rows as they are, marked not inherited. */
  function Current(rs: seq<AccountCredit>): seq<CreditView> {
    seq(|rs|, i requires 0 <= i < |rs| => CreditView(rs[i], false, None))
  }

  /** Rows of an earlier month shown under `month`, marked inherited and
      remembering the month they come from. */
  function Inherit(rs: seq<AccountCredit>, month: string): seq<CreditView> {
    seq(|rs|, i requires 0 <= i < |rs| => CreditView(rs[i].(month := month), true, Some(rs[i].month)))
  }

  /** `getAccountCredits`: with no month, all of the user's rows; with a month that has
      rows, exactly those; with a month that has none, the previous month's
      rows relabelled as inherited. The fallback goes back one month only. */
  function GetAccountCredits(records: seq<AccountCredit>, userId: string, month: Option<string>): (r: seq<CreditView>)
    requires MonthGiven(month) ==> Months.IsMonthFormat(month.value)
    ensures (&& MonthGiven(month) && OfUserInMonth(records, userId, month.value) == []
             && OfUserInMonth(records, userId, Months.PreviousMonth(month.value)) == []) ==> r == []
  {
    if !MonthGiven(month) then Current(OfUser(records, userId))
    else
      var credits := OfUserInMonth(records, userId, month.value);
      if |credits| == 0 then Inherit(OfUserInMonth(records, userId, Months.PreviousMonth(month.value)), month.value)
      else Current(credits)
  }

  /** What `getAccountCredits` returns: with no month, all of the user's rows; with a
      month that has rows, exactly those; with a month that has none, the
      previous month's rows relabelled as inherited: marked, remembering their
      month, and shown under the requested month with every other column as
      stored. */
  lemma GetAccountCreditsMembers(records: seq<AccountCredit>, userId: string, month: Option<string>)
    requires MonthGiven(month) ==> Months.IsMonthFormat(month.value)
    ensures !MonthGiven(month) ==>
              forall v :: v in GetAccountCredits(records, userId, month) <==>
                !v.isInherited && v.originalMonth.None? && v.credit in records && v.credit.userId == userId
    ensures MonthGiven(month) && OfUserInMonth(records, userId, month.value) != [] ==>
              forall v :: v in GetAccountCredits(records, userId, month) <==>
                !v.isInherited && v.originalMonth.None? && v.credit in records
                && v.credit.userId == userId && v.credit.month == month.value
    ensures MonthGiven(month) && OfUserInMonth(records, userId, month.value) == [] ==>
              var prev := Months.PreviousMonth(month.value);
              forall v :: v in GetAccountCredits(records, userId, month) <==>
                v.isInherited && v.originalMonth == Some(prev) && v.credit.month == month.value
                && v.credit.(month := prev) in records && v.credit.userId == userId
  {
    if !MonthGiven(month) {
      CurrentMembers(OfUser(records, userId));
    } else {
      var credits := OfUserInMonth(records, userId, month.value);
      if |credits| == 0 {
        var prev := Months.PreviousMonth(month.value);
        InheritMembers(OfUserInMonth(records, userId, prev), prev, month.value);
      } else {
        CurrentMembers(credits);
      }
    }
  }

  lemma CurrentMembers(rs: seq<AccountCredit>)
    ensures forall v :: v in Current(rs) <==> !v.isInherited && v.originalMonth.None? && v.credit in rs
  {
    forall v
      ensures v in Current(rs) <==> !v.isInherited && v.originalMonth.None? && v.credit in rs
    {
      if !v.isInherited && v.originalMonth.None? && v.credit in rs {
        var i :| 0 <= i < |rs| && rs[i] == v.credit;
        assert Current(rs)[i] == v;
      }
    }
  }

  lemma InheritMembers(rs: seq<AccountCredit>, prev: string, month: string)
    requires forall x :: x in rs ==> x.month == prev
    ensures forall v :: v in Inherit(rs, month) <==>
              v.isInherited && v.originalMonth == Some(prev) && v.credit.month == month && v.credit.(month := prev) in rs
  {
    forall v
      ensures v in Inherit(rs, month) <==>
                v.isInherited && v.originalMonth == Some(prev) && v.credit.month == month && v.credit.(month := prev) in rs
    {
      if v in Inherit(rs, month) {
        var i :| 0 <= i < |rs| && Inherit(rs, month)[i] == v;
        assert v.credit.(month := prev) == rs[i];
      }
      if v.isInherited && v.originalMonth == Some(prev) && v.credit.month == month && v.credit.(month := prev) in rs {
        var i :| 0 <= i < |rs| && rs[i] == v.credit.(month := prev);
        assert Inherit(rs, month)[i] == v;
      }
    }
  }

  /** The first row with this id that belongs to this user (`findFirst`). */
  function IndexOfOwned(records: seq<AccountCredit>, userId: string, id: nat): (k: Option<nat>)
    ensures k.None? <==> forall i :: 0 <= i < |records| ==> !(records[i].id == id && records[i].userId == userId)
    ensures k.Some? ==> k.value < |records| && records[k.value].id == id && records[k.value].userId == userId
  {
    if records == [] then None
    else if records[0].id == id && records[0].userId == userId then Some(0)
    else
      var k := IndexOfOwned(records[1..], userId, id);
      if k.None? then None else Some(k.value + 1)
  }

  /** `getAccountCreditById`: the credit with this id if the user owns it. */
  function GetAccountCreditById(records: seq<AccountCredit>, userId: string, id: nat): (r: Option<AccountCredit>)
    ensures r.Some? ==> r.value in records && r.value.id == id && r.value.userId == userId
    ensures r.None? <==> forall x :: x in records ==> !(x.id == id && x.userId == userId)
  {
    var k := IndexOfOwned(records, userId, id);
    if k.None? then None else Some(records[k.value])
  }

  /** The credits of one account type, summed. */
  function TypeTotal(rs: seq<AccountCredit>, accountType: string): real {
    if rs == [] then 0.0
    else
      TypeTotal(rs[..|rs| - 1], accountType)
      + (if rs[|rs| - 1].accountType == accountType then rs[|rs| - 1].amount else 0.0)
  }

  /** `getTotalCreditsByAccount`: per account type, the sum of the user's
      credits of that type in the exact month; no fallback to the previous
      month. A type with no credits gives 0, and when every credit names one of
      the four types the four sums add up to the month's total. */
  function TotalCreditsByAccount(records: seq<AccountCredit>, userId: string, month: string): (r: CreditTotals)
    ensures forall t: AccountType :: r.For(t) == TypeTotal(OfUserInMonth(records, userId, month), t.Name())
    ensures forall t: AccountType ::
              (forall x :: x in records && x.userId == userId && x.month == month ==> x.accountType != t.Name())
              ==> r.For(t) == 0.0
    ensures (forall x :: x in records && x.userId == userId && x.month == month ==> IsAccountTypeName(x.accountType))
            ==> r.checking + r.creditCard + r.lineOfCredit + r.studentLineOfCredit
                == AmountSum(OfUserInMonth(records, userId, month))
  {
    var credits := OfUserInMonth(records, userId, month);
    forall t: AccountType | forall x :: x in credits ==> x.accountType != t.Name()
      ensures TypeTotal(credits, t.Name()) == 0.0
    {
      AbsentTypeTotal(credits, t.Name());
    }
    TypeTotalsCover(credits);
    CreditTotals(TypeTotal(credits, "checking"), TypeTotal(credits, "credit_card"),
                 TypeTotal(credits, "line_of_credit"), TypeTotal(credits, "student_line_of_credit"))
  }

  lemma {:induction false} AbsentTypeTotal(rs: seq<AccountCredit>, accountType: string)
    requires forall x :: x in rs ==> x.accountType != accountType
    ensures TypeTotal(rs, accountType) == 0.0
  {
    if rs != [] {
      assert rs[|rs| - 1] in rs;
      AbsentTypeTotal(rs[..|rs| - 1], accountType);
    }
  }

  lemma {:induction false} TypeTotalsCover(rs: seq<AccountCredit>)
    ensures (forall x :: x in rs ==> IsAccountTypeName(x.accountType)) ==>
              TypeTotal(rs, "checking") + TypeTotal(rs, "credit_card")
              + TypeTotal(rs, "line_of_credit") + TypeTotal(rs, "student_line_of_credit") == AmountSum(rs)
  {
    if rs != [] {
      assert rs[|rs| - 1] in rs;
      TypeTotalsCover(rs[..|rs| - 1]);
    }
  }

  /** The columns of a row after a partial update; id and owner never change. */
  function ApplyUpdate(inc: AccountCredit, data: CreditUpdate): (r: AccountCredit)
    ensures r.id == inc.id && r.userId == inc.userId
    ensures r.description == (if data.description.Some? then data.description.value else inc.description)
    ensures r.amount == (if data.amount.Some? then data.amount.value else inc.amount)
    ensures r.month == (if data.month.Some? then data.month.value else inc.month)
    ensures r.accountType == (if data.accountType.Some? then data.accountType.value else inc.accountType)
  {
    AccountCredit(inc.id, inc.userId,
                  if data.description.Some? then data.description.value else inc.description,
                  if data.amount.Some? then data.amount.value else inc.amount,
                  if data.accountType.Some? then data.accountType.value else inc.accountType,
                  if data.month.Some? then data.month.value else inc.month)
  }

  /** The rows `applyInheritedCredits` creates from the previous month's rows,
      with the ids the store hands out from `firstId` on. */
  function Copies(prev: seq<AccountCredit>, userId: string, month: string, firstId: nat): (r: seq<AccountCredit>)
    ensures |r| == |prev|
  {
    if prev == [] then []
    else
      Copies(prev[..|prev| - 1], userId, month, firstId)
      + [CopyOf(prev[|prev| - 1], userId, month, firstId + |prev| - 1)]
  }

  /** The copy of one credit: same description, amount and account type, dated
      to `month`. */
  function CopyOf(x: AccountCredit, userId: string, month: string, id: nat): AccountCredit {
    AccountCredit(id, userId, x.description, x.amount, x.accountType, month)
  }

  // ---------------------------------------------------------------------------
  // Lemmas about the reads

  lemma {:induction false} OfUserInMonthAppend(a: seq<AccountCredit>, b: seq<AccountCredit>, userId: string, month: string)
    ensures OfUserInMonth(a + b, userId, month) == OfUserInMonth(a, userId, month) + OfUserInMonth(b, userId, month)
  {
    if b != [] {
      var b' := b[..|b| - 1];
      assert (a + b)[..|a + b| - 1] == a + b';
      OfUserInMonthAppend(a, b', userId, month);
    } else {
      assert a + b == a;
    }
  }

  lemma {:induction false} AmountSumAppend(a: seq<AccountCredit>, b: seq<AccountCredit>)
    ensures AmountSum(a + b) == AmountSum(a) + AmountSum(b)
  {
    if b != [] {
      assert (a + b)[..|a + b| - 1] == a + b[..|b| - 1];
      AmountSumAppend(a, b[..|b| - 1]);
    } else {
      assert a + b == a;
    }
  }

  lemma {:induction false} CopiesAreInMonth(prev: seq<AccountCredit>, userId: string, month: string, firstId: nat)
    ensures OfUserInMonth(Copies(prev, userId, month, firstId), userId, month) == Copies(prev, userId, month, firstId)
  {
    if prev != [] {
      CopiesAreInMonth(prev[..|prev| - 1], userId, month, firstId);
    }
  }

  lemma {:induction false} CopiesAreNotInOtherMonths(prev: seq<AccountCredit>, userId: string, month: string, other: string,
                                                    firstId: nat)
    requires other != month
    ensures OfUserInMonth(Copies(prev, userId, month, firstId), userId, other) == []
  {
    if prev != [] {
      CopiesAreNotInOtherMonths(prev[..|prev| - 1], userId, month, other, firstId);
    }
  }

  lemma {:induction false} CopiesAmount(prev: seq<AccountCredit>, userId: string, month: string, firstId: nat)
    ensures AmountSum(Copies(prev, userId, month, firstId)) == AmountSum(prev)
  {
    if prev != [] {
      CopiesAmount(prev[..|prev| - 1], userId, month, firstId);
    }
  }

  /** Copying the previous month forward adds every copy to the month and
      leaves the previous month as it was, so a second copy finds the same
      rows again: there is no guard against duplicates. The month's credits
      grow by the previous month's credits each time. */
  lemma CopyingForwardRepeats(records: seq<AccountCredit>, userId: string, month: string, firstId: nat)
    requires Months.IsMonthFormat(month)
    ensures var prev := OfUserInMonth(records, userId, Months.PreviousMonth(month));
            var after := records + Copies(prev, userId, month, firstId);
            && OfUserInMonth(after, userId, month)
               == OfUserInMonth(records, userId, month) + Copies(prev, userId, month, firstId)
            && OfUserInMonth(after, userId, Months.PreviousMonth(month)) == prev
            && AmountSum(OfUserInMonth(after, userId, month))
               == AmountSum(OfUserInMonth(records, userId, month)) + AmountSum(prev)
  {
    var prevMonth := Months.PreviousMonth(month);
    var prev := OfUserInMonth(records, userId, prevMonth);
    var c := Copies(prev, userId, month, firstId);
    OfUserInMonthAppend(records, c, userId, month);
    OfUserInMonthAppend(records, c, userId, prevMonth);
    CopiesAreInMonth(prev, userId, month, firstId);
    CopiesAreNotInOtherMonths(prev, userId, month, prevMonth, firstId);
    assert OfUserInMonth(records, userId, prevMonth) + [] == prev;
    AmountSumAppend(OfUserInMonth(records, userId, month), c);
    CopiesAmount(prev, userId, month, firstId);
  }

  /** What a credit shows on the page: everything but its identity and
      its inheritance marks. */
  datatype Line = Line(userId: string, description: string, amount: real, month: string, accountType: string)

  function Lines(vs: seq<CreditView>): seq<Line> {
    seq(|vs|, i requires 0 <= i < |vs| =>
      Line(vs[i].credit.userId, vs[i].credit.description, vs[i].credit.amount, vs[i].credit.month,
           vs[i].credit.accountType))
  }

  lemma {:induction false} CopiesAt(prev: seq<AccountCredit>, userId: string, month: string, firstId: nat)
    ensures forall i :: 0 <= i < |prev| ==>
              Copies(prev, userId, month, firstId)[i] == CopyOf(prev[i], userId, month, firstId + i)
  {
    if prev != [] {
      CopiesAt(prev[..|prev| - 1], userId, month, firstId);
    }
  }

  lemma CopiesShowAsInherited(prev: seq<AccountCredit>, userId: string, month: string, firstId: nat)
    requires forall x :: x in prev ==> x.userId == userId
    ensures Lines(Current(Copies(prev, userId, month, firstId))) == Lines(Inherit(prev, month))
  {
    CopiesAt(prev, userId, month, firstId);
    var a := Lines(Current(Copies(prev, userId, month, firstId)));
    var b := Lines(Inherit(prev, month));
    assert |a| == |b|;
    forall i | 0 <= i < |a|
      ensures a[i] == b[i]
    {
      assert prev[i] in prev;
    }
  }

  /** Applying inheritance to an empty month turns what `getAccountCredits` showed as
      inherited into stored rows showing the same lines, now not inherited. */
  lemma ApplyMaterialisesInherited(records: seq<AccountCredit>, userId: string, month: string, firstId: nat)
    requires Months.IsMonthFormat(month)
    requires OfUserInMonth(records, userId, month) == []
    ensures var prev := OfUserInMonth(records, userId, Months.PreviousMonth(month));
            var after := records + Copies(prev, userId, month, firstId);
            && Lines(GetAccountCredits(after, userId, Some(month))) == Lines(GetAccountCredits(records, userId, Some(month)))
            && (prev != [] ==> GetAccountCredits(after, userId, Some(month)) == Current(Copies(prev, userId, month, firstId)))
  {
    var prev := OfUserInMonth(records, userId, Months.PreviousMonth(month));
    var c := Copies(prev, userId, month, firstId);
    CopyingForwardRepeats(records, userId, month, firstId);
    assert OfUserInMonth(records + c, userId, month) == c;
    GetAccountCreditsOfMonth(records, userId, month);
    if prev == [] {
      assert records + c == records;
    } else {
      GetAccountCreditsOfMonth(records + c, userId, month);
      CopiesShowAsInherited(prev, userId, month, firstId);
    }
  }

  lemma GetAccountCreditsOfMonth(records: seq<AccountCredit>, userId: string, month: string)
    requires Months.IsMonthFormat(month)
    ensures var rs := OfUserInMonth(records, userId, month);
            GetAccountCredits(records, userId, Some(month))
            == if rs != [] then Current(rs)
               else Inherit(OfUserInMonth(records, userId, Months.PreviousMonth(month)), month)
  {
    assert MonthGiven(Some(month));
  }

  predicate IdsBelow(records: seq<AccountCredit>, bound: nat) {
    forall i :: 0 <= i < |records| ==> records[i].id < bound
  }

  predicate IdsDistinct(records: seq<AccountCredit>) {
    forall i, j :: 0 <= i < j < |records| ==> records[i].id != records[j].id
  }

  /** Copies numbered from the store's counter keep every id below the new
      counter and all ids distinct. */
  lemma CopiesHaveFreshIds(records: seq<AccountCredit>, prev: seq<AccountCredit>, userId: string, month: string, firstId: nat)
    requires IdsBelow(records, firstId) && IdsDistinct(records)
    ensures var after := records + Copies(prev, userId, month, firstId);
            IdsBelow(after, firstId + |prev|) && IdsDistinct(after)
  {
    var c := Copies(prev, userId, month, firstId);
    CopiesAt(prev, userId, month, firstId);
    var after := records + c;
    forall i, j | 0 <= i < j < |after|
      ensures after[i].id != after[j].id
    {
      if j >= |records| {
        assert after[j] == c[j - |records|];
        if i >= |records| {
          assert after[i] == c[i - |records|];
        }
      }
    }
    forall i | 0 <= i < |after|
      ensures after[i].id < firstId + |prev|
    {
      if i >= |records| {
        assert after[i] == c[i - |records|];
      }
    }
  }

  // ---------------------------------------------------------------------------
  // The store

  class CreditStore {
    var records: seq<AccountCredit>
    var nextId: nat

    /** Every row has an id below the counter, and ids are distinct. */
    ghost predicate Valid()
      reads this
    {
      IdsBelow(records, nextId) && IdsDistinct(records)
    }

    constructor()
      ensures Valid() && records == []
    {
      records := [];
      nextId := 0;
    }

    /** `createAccountCredit`: stores the input with the user's id under a fresh id. */
    method CreateAccountCredit(userId: string, data: CreditInput) returns (credit: AccountCredit)
      requires Valid()
      modifies this
      ensures Valid()
      ensures credit == AccountCredit(old(nextId), userId, data.description, data.amount, data.accountType, data.month)
      ensures forall x :: x in old(records) ==> x.id != credit.id
      ensures records == old(records) + [credit] && nextId == old(nextId) + 1
    {
      credit := AccountCredit(nextId, userId, data.description, data.amount, data.accountType, data.month);
      records := records + [credit];
      nextId := nextId + 1;
    }

    /** `updateAccountCredit`: `None` and no change unless the user owns a row with
        that id; otherwise that row updated in place. */
    method UpdateAccountCredit(userId: string, id: nat, data: CreditUpdate) returns (r: Option<AccountCredit>)
      requires Valid()
      modifies this
      ensures Valid() && nextId == old(nextId)
      ensures IndexOfOwned(old(records), userId, id).None? ==> r.None? && records == old(records)
      ensures var k := IndexOfOwned(old(records), userId, id);
              k.Some? ==> r == Some(ApplyUpdate(old(records)[k.value], data))
                          && records == old(records)[k.value := r.value]
    {
      var k := IndexOfOwned(records, userId, id);
      if k.None? {
        return None;
      }
      var updated := ApplyUpdate(records[k.value], data);
      records := records[k.value := updated];
      r := Some(updated);
    }

    /** `deleteAccountCredit`: `None` and no change unless the user owns a row with
        that id; otherwise the row is removed and returned as it was. */
    method DeleteAccountCredit(userId: string, id: nat) returns (r: Option<AccountCredit>)
      requires Valid()
      modifies this
      ensures Valid() && nextId == old(nextId)
      ensures IndexOfOwned(old(records), userId, id).None? ==> r.None? && records == old(records)
      ensures var k := IndexOfOwned(old(records), userId, id);
              k.Some? ==> r == Some(old(records)[k.value])
                          && records == old(records)[..k.value] + old(records)[k.value + 1..]
      ensures r.Some? ==> forall x :: x in records ==> x.id != id
    {
      var k := IndexOfOwned(records, userId, id);
      if k.None? {
        return None;
      }
      r := Some(records[k.value]);
      records := records[..k.value] + records[k.value + 1..];
    }

    /** `applyInheritedCredits`: one new credit per credit of the previous
        month, with the same description, amount and account type, dated to
        `month`; nothing when the previous month is empty. The copies are
        created together, as one append, each under the next id of the store. */
    method ApplyInheritedCredits(userId: string, month: string) returns (created: seq<AccountCredit>)
      requires Valid() && Months.IsMonthFormat(month)
      modifies this
      ensures Valid()
      ensures var prev := OfUserInMonth(old(records), userId, Months.PreviousMonth(month));
              && created == Copies(prev, userId, month, old(nextId))
              && records == old(records) + created
              && nextId == old(nextId) + |created|
    {
      var previousCredits := OfUserInMonth(records, userId, Months.PreviousMonth(month));
      if |previousCredits| == 0 {
        return [];
      }
      CopiesHaveFreshIds(records, previousCredits, userId, month, nextId);
      created := Copies(previousCredits, userId, month, nextId);
      CopiesAt(previousCredits, userId, month, nextId);
      records := records + created;
      nextId := nextId + |created|;
    }
  }
}
