/** The income service (`income.service.ts`): a per-user, per-month store of
    income rows, the read that falls back to the previous month's rows
    ("inherited" income), the month summary, and the operation that copies the
    previous month's rows forward.

    The relational store is the class `IncomeStore`, holding every user's rows
    in a sequence; reads are functions of that sequence. Result order is the
    store's order (the service's `orderBy` is not modelled). */
module IncomeService {
  import opened Records
  import Months

  datatype IncomeInput = IncomeInput(personName: string, amount: real, month: string, paymentPeriod: string)

  /** A partial update: `None` leaves the column as it is. */
  datatype IncomeUpdate = IncomeUpdate(
    personName: Option<string>, amount: Option<real>, month: Option<string>, paymentPeriod: Option<string>)

  /** A row as `getIncome` returns it, with its inheritance marks. */
  datatype IncomeView = IncomeView(income: Income, isInherited: bool, originalMonth: Option<string>)

  datatype MonthSummary = MonthSummary(month: string, incomes: seq<Income>, total: real)

  /** The optional `month` argument counts as given only when it is a non-empty
      string, as JavaScript's truthiness test has it. */
  predicate MonthGiven(month: Option<string>) {
    month.Some? && month.value != ""
  }

  // ---------------------------------------------------------------------------
  // Reads

  /** The rows of one user, in store order. */
  function OfUser(records: seq<Income>, userId: string): (r: seq<Income>)
    ensures forall x :: x in r <==> x in records && x.userId == userId
  {
    if records == [] then []
    else
      var last := records[|records| - 1];
      assert records == records[..|records| - 1] + [last];
      var rest := OfUser(records[..|records| - 1], userId);
      if last.userId == userId then rest + [last] else rest
  }

  /** The rows of one user in one exact month, in store order. */
  function OfUserInMonth(records: seq<Income>, userId: string, month: string): (r: seq<Income>)
    ensures forall x :: x in r <==> x in records && x.userId == userId && x.month == month
  {
    if records == [] then []
    else
      var last := records[|records| - 1];
      assert records == records[..|records| - 1] + [last];
      var rest := OfUserInMonth(records[..|records| - 1], userId, month);
      if last.userId == userId && last.month == month then rest + [last] else rest
  }

  function AmountSum(rs: seq<Income>): real {
    if rs == [] then 0.0 else AmountSum(rs[..|rs| - 1]) + rs[|rs| - 1].amount
  }

  /** Rows as they are, marked not inherited. */
  function Current(rs: seq<Income>): seq<IncomeView> {
    seq(|rs|, i requires 0 <= i < |rs| => IncomeView(rs[i], false, None))
  }

  /** Rows of an earlier month shown under `month`, marked inherited and
      remembering the month they come from. */
  function Inherit(rs: seq<Income>, month: string): seq<IncomeView> {
    seq(|rs|, i requires 0 <= i < |rs| => IncomeView(rs[i].(month := month), true, Some(rs[i].month)))
  }

  /** `getIncome`: with no month, all of the user's rows; with a month that has
      rows, exactly those; with a month that has none, the previous month's
      rows relabelled as inherited. The fallback goes back one month only. */
  function GetIncome(records: seq<Income>, userId: string, month: Option<string>): (r: seq<IncomeView>)
    requires MonthGiven(month) ==> Months.IsMonthFormat(month.value)
    ensures (&& MonthGiven(month) && OfUserInMonth(records, userId, month.value) == []
             && OfUserInMonth(records, userId, Months.PreviousMonth(month.value)) == []) ==> r == []
  {
    if !MonthGiven(month) then Current(OfUser(records, userId))
    else
      var income := OfUserInMonth(records, userId, month.value);
      if |income| == 0 then Inherit(OfUserInMonth(records, userId, Months.PreviousMonth(month.value)), month.value)
      else Current(income)
  }

  /** What `getIncome` returns: with no month, all of the user's rows; with a
      month that has rows, exactly those; with a month that has none, the
      previous month's rows relabelled as inherited: marked, remembering their
      month, and shown under the requested month with every other column as
      stored. */
  lemma GetIncomeMembers(records: seq<Income>, userId: string, month: Option<string>)
    requires MonthGiven(month) ==> Months.IsMonthFormat(month.value)
    ensures !MonthGiven(month) ==>
              forall v :: v in GetIncome(records, userId, month) <==>
                !v.isInherited && v.originalMonth.None? && v.income in records && v.income.userId == userId
    ensures MonthGiven(month) && OfUserInMonth(records, userId, month.value) != [] ==>
              forall v :: v in GetIncome(records, userId, month) <==>
                !v.isInherited && v.originalMonth.None? && v.income in records
                && v.income.userId == userId && v.income.month == month.value
    ensures MonthGiven(month) && OfUserInMonth(records, userId, month.value) == [] ==>
              var prev := Months.PreviousMonth(month.value);
              forall v :: v in GetIncome(records, userId, month) <==>
                v.isInherited && v.originalMonth == Some(prev) && v.income.month == month.value
                && v.income.(month := prev) in records && v.income.userId == userId
  {
    if !MonthGiven(month) {
      CurrentMembers(OfUser(records, userId));
    } else {
      var income := OfUserInMonth(records, userId, month.value);
      if |income| == 0 {
        var prev := Months.PreviousMonth(month.value);
        InheritMembers(OfUserInMonth(records, userId, prev), prev, month.value);
      } else {
        CurrentMembers(income);
      }
    }
  }

  lemma CurrentMembers(rs: seq<Income>)
    ensures forall v :: v in Current(rs) <==> !v.isInherited && v.originalMonth.None? && v.income in rs
  {
    forall v
      ensures v in Current(rs) <==> !v.isInherited && v.originalMonth.None? && v.income in rs
    {
      if !v.isInherited && v.originalMonth.None? && v.income in rs {
        var i :| 0 <= i < |rs| && rs[i] == v.income;
        assert Current(rs)[i] == v;
      }
    }
  }

  lemma InheritMembers(rs: seq<Income>, prev: string, month: string)
    requires forall x :: x in rs ==> x.month == prev
    ensures forall v :: v in Inherit(rs, month) <==>
              v.isInherited && v.originalMonth == Some(prev) && v.income.month == month && v.income.(month := prev) in rs
  {
    forall v
      ensures v in Inherit(rs, month) <==>
                v.isInherited && v.originalMonth == Some(prev) && v.income.month == month && v.income.(month := prev) in rs
    {
      if v in Inherit(rs, month) {
        var i :| 0 <= i < |rs| && Inherit(rs, month)[i] == v;
        assert v.income.(month := prev) == rs[i];
      }
      if v.isInherited && v.originalMonth == Some(prev) && v.income.month == month && v.income.(month := prev) in rs {
        var i :| 0 <= i < |rs| && rs[i] == v.income.(month := prev);
        assert Inherit(rs, month)[i] == v;
      }
    }
  }

  /** The first row with this id that belongs to this user (`findFirst`). */
  function IndexOfOwned(records: seq<Income>, userId: string, id: nat): (k: Option<nat>)
    ensures k.None? <==> forall i :: 0 <= i < |records| ==> !(records[i].id == id && records[i].userId == userId)
    ensures k.Some? ==> k.value < |records| && records[k.value].id == id && records[k.value].userId == userId
  {
    if records == [] then None
    else if records[0].id == id && records[0].userId == userId then Some(0)
    else
      var k := IndexOfOwned(records[1..], userId, id);
      if k.None? then None else Some(k.value + 1)
  }

  /** `getIncomeById`: the row with this id if the user owns it. */
  function GetIncomeById(records: seq<Income>, userId: string, id: nat): (r: Option<Income>)
    ensures r.Some? ==> r.value in records && r.value.id == id && r.value.userId == userId
    ensures r.None? <==> forall x :: x in records ==> !(x.id == id && x.userId == userId)
  {
    var k := IndexOfOwned(records, userId, id);
    if k.None? then None else Some(records[k.value])
  }

  /** `getMonthSummary`: the rows of the exact month (no fallback) and the sum
      of their amounts. */
  function GetMonthSummary(records: seq<Income>, userId: string, month: string): (r: MonthSummary)
    ensures r.month == month
    ensures forall x :: x in r.incomes <==> x in records && x.userId == userId && x.month == month
    ensures r.total == AmountSum(r.incomes)
    ensures OfUserInMonth(records, userId, month) == [] ==> r.total == 0.0
  {
    var incomes := OfUserInMonth(records, userId, month);
    MonthSummary(month, incomes, AmountSum(incomes))
  }

  /** The columns of a row after a partial update; id and owner never change. */
  function ApplyUpdate(inc: Income, data: IncomeUpdate): (r: Income)
    ensures r.id == inc.id && r.userId == inc.userId
    ensures r.personName == (if data.personName.Some? then data.personName.value else inc.personName)
    ensures r.amount == (if data.amount.Some? then data.amount.value else inc.amount)
    ensures r.month == (if data.month.Some? then data.month.value else inc.month)
    ensures r.paymentPeriod == (if data.paymentPeriod.Some? then data.paymentPeriod.value else inc.paymentPeriod)
  {
    Income(inc.id, inc.userId,
           if data.personName.Some? then data.personName.value else inc.personName,
           if data.amount.Some? then data.amount.value else inc.amount,
           if data.month.Some? then data.month.value else inc.month,
           if data.paymentPeriod.Some? then data.paymentPeriod.value else inc.paymentPeriod)
  }

  /** The rows `applyInheritedIncome` creates from the previous month's rows,
      with the ids the store hands out from `firstId` on. */
  function Copies(prev: seq<Income>, userId: string, month: string, firstId: nat): (r: seq<Income>)
    ensures |r| == |prev|
  {
    if prev == [] then []
    else
      Copies(prev[..|prev| - 1], userId, month, firstId)
      + [CopyOf(prev[|prev| - 1], userId, month, firstId + |prev| - 1)]
  }

  /** The copy of one row: same person, amount and period, dated to `month`. */
  function CopyOf(x: Income, userId: string, month: string, id: nat): Income {
    Income(id, userId, x.personName, x.amount, month, x.paymentPeriod)
  }

  // ---------------------------------------------------------------------------
  // Lemmas about the reads

  lemma {:induction false} OfUserInMonthAppend(a: seq<Income>, b: seq<Income>, userId: string, month: string)
    ensures OfUserInMonth(a + b, userId, month) == OfUserInMonth(a, userId, month) + OfUserInMonth(b, userId, month)
  {
    if b != [] {
      var b' := b[..|b| - 1];
      assert (a + b)[..|a + b| - 1] == a + b';
      OfUserInMonthAppend(a, b', userId, month);
    } else {
      assert a + b == a;
    }
  }

  lemma {:induction false} AmountSumAppend(a: seq<Income>, b: seq<Income>)
    ensures AmountSum(a + b) == AmountSum(a) + AmountSum(b)
  {
    if b != [] {
      assert (a + b)[..|a + b| - 1] == a + b[..|b| - 1];
      AmountSumAppend(a, b[..|b| - 1]);
    } else {
      assert a + b == a;
    }
  }

  lemma {:induction false} CopiesAreInMonth(prev: seq<Income>, userId: string, month: string, firstId: nat)
    ensures OfUserInMonth(Copies(prev, userId, month, firstId), userId, month) == Copies(prev, userId, month, firstId)
  {
    if prev != [] {
      CopiesAreInMonth(prev[..|prev| - 1], userId, month, firstId);
    }
  }

  lemma {:induction false} CopiesAreNotInOtherMonths(prev: seq<Income>, userId: string, month: string, other: string,
                                                    firstId: nat)
    requires other != month
    ensures OfUserInMonth(Copies(prev, userId, month, firstId), userId, other) == []
  {
    if prev != [] {
      CopiesAreNotInOtherMonths(prev[..|prev| - 1], userId, month, other, firstId);
    }
  }

  lemma {:induction false} CopiesAmount(prev: seq<Income>, userId: string, month: string, firstId: nat)
    ensures AmountSum(Copies(prev, userId, month, firstId)) == AmountSum(prev)
  {
    if prev != [] {
      CopiesAmount(prev[..|prev| - 1], userId, month, firstId);
    }
  }

  /** Copying the previous month forward adds every copy to the month and
      leaves the previous month as it was, so a second copy finds the same
      rows again: there is no guard against duplicates. The month's total
      grows by the previous month's total each time. */
  lemma CopyingForwardRepeats(records: seq<Income>, userId: string, month: string, firstId: nat)
    requires Months.IsMonthFormat(month)
    ensures var prev := OfUserInMonth(records, userId, Months.PreviousMonth(month));
            var after := records + Copies(prev, userId, month, firstId);
            && OfUserInMonth(after, userId, month)
               == OfUserInMonth(records, userId, month) + Copies(prev, userId, month, firstId)
            && OfUserInMonth(after, userId, Months.PreviousMonth(month)) == prev
            && GetMonthSummary(after, userId, month).total
               == GetMonthSummary(records, userId, month).total + AmountSum(prev)
  {
    var prevMonth := Months.PreviousMonth(month);
    var prev := OfUserInMonth(records, userId, prevMonth);
    var c := Copies(prev, userId, month, firstId);
    OfUserInMonthAppend(records, c, userId, month);
    OfUserInMonthAppend(records, c, userId, prevMonth);
    CopiesAreInMonth(prev, userId, month, firstId);
    CopiesAreNotInOtherMonths(prev, userId, month, prevMonth, firstId);
    assert OfUserInMonth(records, userId, prevMonth) + [] == prev;
    AmountSumAppend(OfUserInMonth(records, userId, month), c);
    CopiesAmount(prev, userId, month, firstId);
  }

  /** What a row shows on the income page: everything but its identity and
      its inheritance marks. */
  datatype Line = Line(userId: string, personName: string, amount: real, month: string, paymentPeriod: string)

  function Lines(vs: seq<IncomeView>): seq<Line> {
    seq(|vs|, i requires 0 <= i < |vs| =>
      Line(vs[i].income.userId, vs[i].income.personName, vs[i].income.amount, vs[i].income.month,
           vs[i].income.paymentPeriod))
  }

  lemma {:induction false} CopiesAt(prev: seq<Income>, userId: string, month: string, firstId: nat)
    ensures forall i :: 0 <= i < |prev| ==>
              Copies(prev, userId, month, firstId)[i] == CopyOf(prev[i], userId, month, firstId + i)
  {
    if prev != [] {
      CopiesAt(prev[..|prev| - 1], userId, month, firstId);
    }
  }

  lemma CopiesShowAsInherited(prev: seq<Income>, userId: string, month: string, firstId: nat)
    requires forall x :: x in prev ==> x.userId == userId
    ensures Lines(Current(Copies(prev, userId, month, firstId))) == Lines(Inherit(prev, month))
  {
    CopiesAt(prev, userId, month, firstId);
    var a := Lines(Current(Copies(prev, userId, month, firstId)));
    var b := Lines(Inherit(prev, month));
    assert |a| == |b|;
    forall i | 0 <= i < |a|
      ensures a[i] == b[i]
    {
      assert prev[i] in prev;
    }
  }

  /** Applying inheritance to an empty month turns what `getIncome` showed as
      inherited into stored rows showing the same lines, now not inherited. */
  lemma ApplyMaterialisesInherited(records: seq<Income>, userId: string, month: string, firstId: nat)
    requires Months.IsMonthFormat(month)
    requires OfUserInMonth(records, userId, month) == []
    ensures var prev := OfUserInMonth(records, userId, Months.PreviousMonth(month));
            var after := records + Copies(prev, userId, month, firstId);
            && Lines(GetIncome(after, userId, Some(month))) == Lines(GetIncome(records, userId, Some(month)))
            && (prev != [] ==> GetIncome(after, userId, Some(month)) == Current(Copies(prev, userId, month, firstId)))
  {
    var prev := OfUserInMonth(records, userId, Months.PreviousMonth(month));
    var c := Copies(prev, userId, month, firstId);
    CopyingForwardRepeats(records, userId, month, firstId);
    assert OfUserInMonth(records + c, userId, month) == c;
    GetIncomeOfMonth(records, userId, month);
    if prev == [] {
      assert records + c == records;
    } else {
      GetIncomeOfMonth(records + c, userId, month);
      CopiesShowAsInherited(prev, userId, month, firstId);
    }
  }

  lemma GetIncomeOfMonth(records: seq<Income>, userId: string, month: string)
    requires Months.IsMonthFormat(month)
    ensures var rs := OfUserInMonth(records, userId, month);
            GetIncome(records, userId, Some(month))
            == if rs != [] then Current(rs)
               else Inherit(OfUserInMonth(records, userId, Months.PreviousMonth(month)), month)
  {
    assert MonthGiven(Some(month));
  }

  predicate IdsBelow(records: seq<Income>, bound: nat) {
    forall i :: 0 <= i < |records| ==> records[i].id < bound
  }

  predicate IdsDistinct(records: seq<Income>) {
    forall i, j :: 0 <= i < j < |records| ==> records[i].id != records[j].id
  }

  /** Copies numbered from the store's counter keep every id below the new
      counter and all ids distinct. */
  lemma CopiesHaveFreshIds(records: seq<Income>, prev: seq<Income>, userId: string, month: string, firstId: nat)
    requires IdsBelow(records, firstId) && IdsDistinct(records)
    ensures var after := records + Copies(prev, userId, month, firstId);
            IdsBelow(after, firstId + |prev|) && IdsDistinct(after)
  {
    var c := Copies(prev, userId, month, firstId);
    CopiesAt(prev, userId, month, firstId);
    var after := records + c;
    forall i, j | 0 <= i < j < |after|
      ensures after[i].id != after[j].id
    {
      if j >= |records| {
        assert after[j] == c[j - |records|];
        if i >= |records| {
          assert after[i] == c[i - |records|];
        }
      }
    }
    forall i | 0 <= i < |after|
      ensures after[i].id < firstId + |prev|
    {
      if i >= |records| {
        assert after[i] == c[i - |records|];
      }
    }
  }

  // ---------------------------------------------------------------------------
  // The store

  class IncomeStore {
    var records: seq<Income>
    var nextId: nat

    /** Every row has an id below the counter, and ids are distinct. */
    ghost predicate Valid()
      reads this
    {
      IdsBelow(records, nextId) && IdsDistinct(records)
    }

    constructor()
      ensures Valid() && records == []
    {
      records := [];
      nextId := 0;
    }

    /** `createIncome`: stores the input with the user's id under a fresh id. */
    method CreateIncome(userId: string, data: IncomeInput) returns (income: Income)
      requires Valid()
      modifies this
      ensures Valid()
      ensures income == Income(old(nextId), userId, data.personName, data.amount, data.month, data.paymentPeriod)
      ensures forall x :: x in old(records) ==> x.id != income.id
      ensures records == old(records) + [income] && nextId == old(nextId) + 1
    {
      income := Income(nextId, userId, data.personName, data.amount, data.month, data.paymentPeriod);
      records := records + [income];
      nextId := nextId + 1;
    }

    /** `updateIncome`: `None` and no change unless the user owns a row with
        that id; otherwise that row updated in place. */
    method UpdateIncome(userId: string, id: nat, data: IncomeUpdate) returns (r: Option<Income>)
      requires Valid()
      modifies this
      ensures Valid() && nextId == old(nextId)
      ensures IndexOfOwned(old(records), userId, id).None? ==> r.None? && records == old(records)
      ensures var k := IndexOfOwned(old(records), userId, id);
              k.Some? ==> r == Some(ApplyUpdate(old(records)[k.value], data))
                          && records == old(records)[k.value := r.value]
    {
      var k := IndexOfOwned(records, userId, id);
      if k.None? {
        return None;
      }
      var updated := ApplyUpdate(records[k.value], data);
      records := records[k.value := updated];
      r := Some(updated);
    }

    /** `deleteIncome`: `None` and no change unless the user owns a row with
        that id; otherwise the row is removed and returned as it was. */
    method DeleteIncome(userId: string, id: nat) returns (r: Option<Income>)
      requires Valid()
      modifies this
      ensures Valid() && nextId == old(nextId)
      ensures IndexOfOwned(old(records), userId, id).None? ==> r.None? && records == old(records)
      ensures var k := IndexOfOwned(old(records), userId, id);
              k.Some? ==> r == Some(old(records)[k.value])
                          && records == old(records)[..k.value] + old(records)[k.value + 1..]
      ensures r.Some? ==> forall x :: x in records ==> x.id != id
    {
      var k := IndexOfOwned(records, userId, id);
      if k.None? {
        return None;
      }
      r := Some(records[k.value]);
      records := records[..k.value] + records[k.value + 1..];
    }

    /** `applyInheritedIncome`: one new row per row of the previous month, with
        the same person, amount and period, dated to `month`; nothing when the
        previous month is empty. The copies are created together, as one
        append, each under the next id of the store. */
    method ApplyInheritedIncome(userId: string, month: string) returns (created: seq<Income>)
      requires Valid() && Months.IsMonthFormat(month)
      modifies this
      ensures Valid()
      ensures var prev := OfUserInMonth(old(records), userId, Months.PreviousMonth(month));
              && created == Copies(prev, userId, month, old(nextId))
              && records == old(records) + created
              && nextId == old(nextId) + |created|
    {
      var previousIncome := OfUserInMonth(records, userId, Months.PreviousMonth(month));
      if |previousIncome| == 0 {
        return [];
      }
      CopiesHaveFreshIds(records, previousIncome, userId, month, nextId);
      created := Copies(previousIncome, userId, month, nextId);
      CopiesAt(previousIncome, userId, month, nextId);
      records := records + created;
      nextId := nextId + |created|;
    }
  }
}
