/** The monthly calculation engine (`calculation.service.ts`): the charge of one
    expense in a month, the per-account totals split by payment type, the split
    of an account total between the two people and between each person's two
    pay periods, and the month report that assembles them.

    The store reads of the service (the user's unarchived expenses, the user's
    income rows of the month, the settings row) are parameters here. */
module Calculation {
  import opened Records
  import Months

  datatype Totals = Totals(total: real, automatic: real, manual: real)

  datatype PersonContribution = PersonContribution(part1: real, part2: real, total: real)

  datatype Contributions = Contributions(person1: PersonContribution, person2: PersonContribution)

  datatype AccountCalculation = AccountCalculation(
    totalExpenses: real,
    person1Share: PersonContribution,
    person2Share: PersonContribution,
    automaticPayments: real,
    manualPayments: real,
    currentBalance: real,
    balanceAfterExpenses: real)

  datatype PersonCalculation = PersonCalculation(
    totalIncome: real,
    incomePart1: real,
    incomePart2: real,
    totalContribution: real,
    contributionPart1: real,
    contributionPart2: real,
    remaining: real,
    remainingAfterPart1: real,
    remainingAfterPart2: real)

  datatype MonthlyCalculation = MonthlyCalculation(
    month: string,
    checking: AccountCalculation,
    creditCard: AccountCalculation,
    lineOfCredit: AccountCalculation,
    studentLineOfCredit: AccountCalculation,
    totalIncome: real,
    totalExpenses: real,
    balance: real,
    person1: PersonCalculation,
    person2: PersonCalculation)

  // ---------------------------------------------------------------------------
  // calculateProratedAmount

  /** The charge of an expense in each of its active months, by frequency. */
  function ChargeRate(e: Expense): real
    requires |e.activeMonths| > 0
  {
    if e.frequency == "monthly" then e.amount
    else if e.frequency == "yearly" then e.amount / 12.0
    else if e.frequency == "quarterly" then e.amount / 3.0
    else if e.frequency == "custom" then e.amount / (|e.activeMonths| as real)
    else e.amount
  }

  /** The charge of one expense in month number `month`: nothing outside its
      active months, whatever its frequency. */
  function ProratedAmount(e: Expense, month: int): (r: real)
    ensures (month as real) !in e.activeMonths ==> r == 0.0
    ensures e.amount >= 0.0 ==> 0.0 <= r <= e.amount
  {
    if (month as real) !in e.activeMonths then 0.0
    else
      assert |e.activeMonths| >= 1;
      assert e.amount >= 0.0 ==> e.amount / (|e.activeMonths| as real) <= e.amount by {
        if e.amount >= 0.0 {
          DivideByAtLeastOne(e.amount, |e.activeMonths| as real);
        }
      }
      ChargeRate(e)
  }

  lemma DivideByAtLeastOne(x: real, d: real)
    requires x >= 0.0 && d >= 1.0
    ensures 0.0 <= x / d <= x
  {
    assert x / d * d == x;
    assert x / d * d >= x / d * 1.0;
  }

  /** The charges of an expense over months 1..n of a year. */
  function ChargesThrough(e: Expense, n: nat): real {
    if n == 0 then 0.0 else ChargesThrough(e, n - 1) + ProratedAmount(e, n)
  }

  /** How many of the months 1..n are active in `ms`. */
  function ActiveMonthsThrough(ms: seq<real>, n: nat): nat {
    if n == 0 then 0 else ActiveMonthsThrough(ms, n - 1) + (if (n as real) in ms then 1 else 0)
  }

  /** `x` is one of the whole month numbers 1..n. */
  predicate IsMonthAtMost(x: real, n: nat) {
    x == x.Floor as real && 1 <= x.Floor <= n
  }

  predicate NoDuplicates(ms: seq<real>) {
    forall i, j :: 0 <= i < j < |ms| ==> ms[i] != ms[j]
  }

  /** Active months as the expense form produces them: distinct whole months. */
  predicate WellFormedMonths(ms: seq<real>) {
    NoDuplicates(ms) && forall i :: 0 <= i < |ms| ==> IsMonthAtMost(ms[i], 12)
  }

  /** Over months 1..n an expense is charged its rate once per active month. */
  lemma {:induction false} ChargesThroughIsRateTimesActive(e: Expense, n: nat)
    requires |e.activeMonths| > 0
    ensures ChargesThrough(e, n) == ChargeRate(e) * (ActiveMonthsThrough(e.activeMonths, n) as real)
  {
    ChargesThroughAtRate(e, n);
    ActiveChargesAreRateTimesCount(e.activeMonths, ChargeRate(e), n);
  }

  /** A charge of `rate` in each month of 1..n that `ms` holds. */
  function ActiveCharges(ms: seq<real>, rate: real, n: nat): real {
    if n == 0 then 0.0 else ActiveCharges(ms, rate, n - 1) + (if (n as real) in ms then rate else 0.0)
  }

  lemma {:induction false} ChargesThroughAtRate(e: Expense, n: nat)
    requires |e.activeMonths| > 0
    ensures ChargesThrough(e, n) == ActiveCharges(e.activeMonths, ChargeRate(e), n)
  {
    if n > 0 {
      ChargesThroughAtRate(e, n - 1);
    }
  }

  lemma {:induction false} ActiveChargesAreRateTimesCount(ms: seq<real>, rate: real, n: nat)
    ensures ActiveCharges(ms, rate, n) == rate * (ActiveMonthsThrough(ms, n) as real)
  {
    if n > 0 {
      ActiveChargesAreRateTimesCount(ms, rate, n - 1);
      var before := ActiveMonthsThrough(ms, n - 1) as real;
      if (n as real) in ms {
        assert ActiveMonthsThrough(ms, n) as real == before + 1.0;
        OneMoreMonth(rate, before);
      } else {
        assert ActiveMonthsThrough(ms, n) as real == before;
        assert ActiveCharges(ms, rate, n) == rate * before;
      }
    }
  }

  lemma OneMoreMonth(rate: real, months: real)
    ensures rate * months + rate == rate * (months + 1.0)
  {
  }

  lemma {:induction false} ActiveMonthsThroughAppend(ms: seq<real>, x: real, n: nat)
    requires x !in ms
    ensures ActiveMonthsThrough(ms + [x], n)
         == ActiveMonthsThrough(ms, n) + (if IsMonthAtMost(x, n) then 1 else 0)
  {
    if n > 0 {
      ActiveMonthsThroughAppend(ms, x, n - 1);
      assert (n as real) in ms + [x] <==> (n as real) in ms || x == n as real;
      assert IsMonthAtMost(x, n) <==> IsMonthAtMost(x, n - 1) || x == n as real;
    }
  }

  lemma {:induction false} NoActiveMonths(n: nat)
    ensures ActiveMonthsThrough([], n) == 0
  {
    if n > 0 {
      NoActiveMonths(n - 1);
    }
  }

  /** With distinct whole active months, every one of them is counted once. */
  lemma {:induction false} ActiveMonthsThroughYear(ms: seq<real>)
    requires WellFormedMonths(ms)
    ensures ActiveMonthsThrough(ms, 12) == |ms|
  {
    if ms == [] {
      NoActiveMonths(12);
    } else {
      var init := ms[..|ms| - 1];
      var x := ms[|ms| - 1];
      assert ms == init + [x];
      assert x !in init;
      assert WellFormedMonths(init) by {
        forall i | 0 <= i < |init| ensures IsMonthAtMost(init[i], 12) {
          assert init[i] == ms[i];
        }
      }
      assert IsMonthAtMost(x, 12);
      ActiveMonthsThroughYear(init);
      ActiveMonthsThroughAppend(init, x, 12);
    }
  }

  /** Over a whole year an expense with well-formed active months is charged its
      rate once per active month: a custom expense exactly its amount, a yearly
      one `amount / 12` per active month, a quarterly one `amount / 3` per active
      month, a monthly one its amount per active month. */
  lemma YearOfCharges(e: Expense)
    requires |e.activeMonths| > 0 && WellFormedMonths(e.activeMonths)
    ensures ChargesThrough(e, 12) == ChargeRate(e) * (|e.activeMonths| as real)
    ensures e.frequency == "custom" ==> ChargesThrough(e, 12) == e.amount
    ensures e.frequency == "yearly" ==> ChargesThrough(e, 12) == e.amount * (|e.activeMonths| as real) / 12.0
  {
    var k := |e.activeMonths| as real;
    ChargesThroughIsRateTimesActive(e, 12);
    ActiveMonthsThroughYear(e.activeMonths);
    RateByFrequency(e);
    SpreadAndGather(e.amount, k);
    TwelfthTimes(e.amount, k);
  }

  /** The rate of a custom and of a yearly expense. */
  lemma RateByFrequency(e: Expense)
    requires |e.activeMonths| > 0
    ensures e.frequency == "custom" ==> ChargeRate(e) == e.amount / (|e.activeMonths| as real)
    ensures e.frequency == "yearly" ==> ChargeRate(e) == e.amount / 12.0
  {
  }

  lemma SpreadAndGather(x: real, k: real)
    requires k > 0.0
    ensures x / k * k == x
  {
  }

  lemma TwelfthTimes(x: real, k: real)
    ensures x / 12.0 * k == x * k / 12.0
  {
  }

  // ---------------------------------------------------------------------------
  // calculateAccountTotal

  datatype Column = AllPayments | AutomaticPayments | ManualPayments

  /** Whether the account total looks at an expense at all. */
  predicate Considered(e: Expense, t: AccountType) {
    e.accountType == t.Name() && !e.isArchived
  }

  /** What one expense adds to one column of an account's totals: only
      `"automatic"` counts as automatic, every other payment type as manual. */
  function ColumnCharge(e: Expense, t: AccountType, month: int, c: Column): real {
    if !Considered(e, t) then 0.0
    else
      match c
      case AllPayments => ProratedAmount(e, month)
      case AutomaticPayments => if e.paymentType == "automatic" then ProratedAmount(e, month) else 0.0
      case ManualPayments => if e.paymentType == "automatic" then 0.0 else ProratedAmount(e, month)
  }

  function ColumnSum(es: seq<Expense>, t: AccountType, month: int, c: Column): real {
    if es == [] then 0.0
    else ColumnSum(es[..|es| - 1], t, month, c) + ColumnCharge(es[|es| - 1], t, month, c)
  }

  /** The totals of one account in one month, as sums over the expenses; the
      total is the automatic plus the manual charges. */
  function AccountTotalOf(es: seq<Expense>, t: AccountType, month: int): (r: Totals)
    ensures r.total == r.automatic + r.manual
  {
    TotalIsAutomaticPlusManual(es, t, month);
    Totals(ColumnSum(es, t, month, AllPayments),
           ColumnSum(es, t, month, AutomaticPayments),
           ColumnSum(es, t, month, ManualPayments))
  }

  /** Every charge counted in an account's total is counted as either automatic
      or manual, and only once. */
  lemma {:induction false} TotalIsAutomaticPlusManual(es: seq<Expense>, t: AccountType, month: int)
    ensures ColumnSum(es, t, month, AllPayments)
         == ColumnSum(es, t, month, AutomaticPayments) + ColumnSum(es, t, month, ManualPayments)
  {
    if es != [] {
      TotalIsAutomaticPlusManual(es[..|es| - 1], t, month);
    }
  }

  /** Expenses of another account, archived expenses and expenses inactive in
      the month add nothing to any column; an empty list gives all zeros. */
  lemma {:induction false} IgnoredExpensesAddNothing(es: seq<Expense>, t: AccountType, month: int, c: Column)
    requires forall i :: 0 <= i < |es| ==>
               es[i].accountType != t.Name() || es[i].isArchived || (month as real) !in es[i].activeMonths
    ensures ColumnSum(es, t, month, c) == 0.0
  {
    if es != [] {
      IgnoredExpensesAddNothing(es[..|es| - 1], t, month, c);
    }
  }

  /** `calculateAccountTotal`: one pass over the expenses with three running sums. */
  method CalculateAccountTotal(expenses: seq<Expense>, accountType: AccountType, month: int) returns (r: Totals)
    ensures r == AccountTotalOf(expenses, accountType, month)
    ensures r.total == r.automatic + r.manual
  {
    var total, automatic, manual := 0.0, 0.0, 0.0;
    for i := 0 to |expenses|
      invariant total == ColumnSum(expenses[..i], accountType, month, AllPayments)
      invariant automatic == ColumnSum(expenses[..i], accountType, month, AutomaticPayments)
      invariant manual == ColumnSum(expenses[..i], accountType, month, ManualPayments)
    {
      assert expenses[..i + 1][..i] == expenses[..i];
      var expense := expenses[i];
      if expense.accountType != accountType.Name() || expense.isArchived {
        continue;
      }
      var proratedAmount := ProratedAmount(expense, month);
      total := total + proratedAmount;
      if expense.paymentType == "automatic" {
        automatic := automatic + proratedAmount;
      } else {
        manual := manual + proratedAmount;
      }
    }
    assert expenses[..|expenses|] == expenses;
    TotalIsAutomaticPlusManual(expenses, accountType, month);
    r := Totals(total, automatic, manual);
  }

  // ---------------------------------------------------------------------------
  // calculateAccountContributions

  /** One person's share divided between the two pay periods in proportion to
      that person's income in each, half and half when the income is not
      positive. */
  function SplitByIncome(share: real, incomePart1: real, incomePart2: real): (c: PersonContribution)
    ensures c.total == share
    ensures c.part1 + c.part2 == share
    ensures incomePart1 + incomePart2 <= 0.0 ==> c.part1 == share / 2.0 && c.part2 == share / 2.0
    ensures incomePart1 + incomePart2 > 0.0 ==>
              c.part1 * (incomePart1 + incomePart2) == share * incomePart1 &&
              c.part2 * (incomePart1 + incomePart2) == share * incomePart2
  {
    var totalIncome := incomePart1 + incomePart2;
    var part1Ratio := if totalIncome > 0.0 then incomePart1 / totalIncome else 0.5;
    var part2Ratio := if totalIncome > 0.0 then incomePart2 / totalIncome else 0.5;
    assert totalIncome > 0.0 ==> part1Ratio + part2Ratio == 1.0;
    assert share * part1Ratio + share * part2Ratio == share * (part1Ratio + part2Ratio);
    PersonContribution(share * part1Ratio, share * part2Ratio, share)
  }

  /** `calculateAccountContributions`: each person's share of an account total is
      the total times that person's split ratio over 100, then split by pay
      period. */
  function AccountContributions(totalAmount: real, s: Settings,
                                person1IncomePart1: real, person1IncomePart2: real,
                                person2IncomePart1: real, person2IncomePart2: real): (r: Contributions)
    ensures r.person1.total == totalAmount * s.splitRatioPerson1 / 100.0
    ensures r.person2.total == totalAmount * s.splitRatioPerson2 / 100.0
    ensures s.splitRatioPerson1 + s.splitRatioPerson2 == 100.0 ==> r.person1.total + r.person2.total == totalAmount
    ensures r.person1.part1 + r.person1.part2 == r.person1.total
    ensures r.person2.part1 + r.person2.part2 == r.person2.total
  {
    var person1Total := totalAmount * s.splitRatioPerson1 / 100.0;
    var person2Total := totalAmount * s.splitRatioPerson2 / 100.0;
    SharesAddUp(totalAmount, s.splitRatioPerson1, s.splitRatioPerson2);
    var person1 := SplitByIncome(person1Total, person1IncomePart1, person1IncomePart2);
    var person2 := SplitByIncome(person2Total, person2IncomePart1, person2IncomePart2);
    Contributions(person1, person2)
  }

  /** Within each person's share, the two periods' parts follow that person's
      income in the two periods, half and half when the income is not
      positive. */
  lemma ContributionsFollowIncome(totalAmount: real, s: Settings,
                                  person1IncomePart1: real, person1IncomePart2: real,
                                  person2IncomePart1: real, person2IncomePart2: real)
    ensures var r := AccountContributions(totalAmount, s, person1IncomePart1, person1IncomePart2,
                                          person2IncomePart1, person2IncomePart2);
            && (person1IncomePart1 + person1IncomePart2 <= 0.0 ==> r.person1.part1 == r.person1.part2)
            && (person2IncomePart1 + person2IncomePart2 <= 0.0 ==> r.person2.part1 == r.person2.part2)
            && (person1IncomePart1 + person1IncomePart2 > 0.0 ==>
                  r.person1.part1 * (person1IncomePart1 + person1IncomePart2) == r.person1.total * person1IncomePart1)
            && (person2IncomePart1 + person2IncomePart2 > 0.0 ==>
                  r.person2.part1 * (person2IncomePart1 + person2IncomePart2) == r.person2.total * person2IncomePart1)
  {
    var r := AccountContributions(totalAmount, s, person1IncomePart1, person1IncomePart2,
                                  person2IncomePart1, person2IncomePart2);
    assert r.person1 == SplitByIncome(totalAmount * s.splitRatioPerson1 / 100.0, person1IncomePart1, person1IncomePart2);
    assert r.person2 == SplitByIncome(totalAmount * s.splitRatioPerson2 / 100.0, person2IncomePart1, person2IncomePart2);
  }

  lemma SharesAddUp(total: real, ratio1: real, ratio2: real)
    ensures total * ratio1 / 100.0 + total * ratio2 / 100.0 == total * (ratio1 + ratio2) / 100.0
  {
  }

  /** 1200 on checking, a 60/40 split, person 1 earning 3000 in each period,
      person 2 earning 2000 in the second period only. */
  lemma ContributionsExample(s: Settings)
    requires s.splitRatioPerson1 == 60.0 && s.splitRatioPerson2 == 40.0
    ensures AccountContributions(1200.0, s, 3000.0, 3000.0, 0.0, 2000.0)
         == Contributions(PersonContribution(360.0, 360.0, 720.0), PersonContribution(0.0, 480.0, 480.0))
  {
  }

  // ---------------------------------------------------------------------------
  // Income bucketing in getMonthCalculations

  datatype Bucket = Person1Part1 | Person1Part2 | Person2Part1 | Person2Part2

  datatype IncomeBuckets = IncomeBuckets(person1Part1: real, person1Part2: real, person2Part1: real, person2Part2: real)

  /** The bucket an income row lands in: the first name is tried first, any
      period other than `"part1"` is the second period, other names nowhere. */
  function BucketOf(inc: Income, person1Name: string, person2Name: string): Option<Bucket> {
    if inc.personName == person1Name then
      Some(if inc.paymentPeriod == "part1" then Person1Part1 else Person1Part2)
    else if inc.personName == person2Name then
      Some(if inc.paymentPeriod == "part1" then Person2Part1 else Person2Part2)
    else None
  }

  function BucketSum(incomes: seq<Income>, person1Name: string, person2Name: string, b: Bucket): real {
    if incomes == [] then 0.0
    else
      BucketSum(incomes[..|incomes| - 1], person1Name, person2Name, b)
      + (if BucketOf(incomes[|incomes| - 1], person1Name, person2Name) == Some(b)
         then incomes[|incomes| - 1].amount else 0.0)
  }

  /** Reference sums: a person's whole income, and the part of it whose period
      is `"part1"`. */
  function IncomeOf(incomes: seq<Income>, name: string): real {
    if incomes == [] then 0.0
    else
      IncomeOf(incomes[..|incomes| - 1], name)
      + (if incomes[|incomes| - 1].personName == name then incomes[|incomes| - 1].amount else 0.0)
  }

  function Part1IncomeOf(incomes: seq<Income>, name: string): real {
    if incomes == [] then 0.0
    else
      Part1IncomeOf(incomes[..|incomes| - 1], name)
      + (if incomes[|incomes| - 1].personName == name && incomes[|incomes| - 1].paymentPeriod == "part1"
         then incomes[|incomes| - 1].amount else 0.0)
  }

  /** The buckets against the per-person reference sums: person 1 gets every row
      with its name, in the first period exactly the `"part1"` rows; person 2
      gets its rows only when the two names differ; rows of any other name are
      dropped. */
  lemma {:induction false} BucketsByPerson(incomes: seq<Income>, person1Name: string, person2Name: string)
    ensures BucketSum(incomes, person1Name, person2Name, Person1Part1) == Part1IncomeOf(incomes, person1Name)
    ensures BucketSum(incomes, person1Name, person2Name, Person1Part2)
         == IncomeOf(incomes, person1Name) - Part1IncomeOf(incomes, person1Name)
    ensures person1Name != person2Name ==>
              BucketSum(incomes, person1Name, person2Name, Person2Part1) == Part1IncomeOf(incomes, person2Name) &&
              BucketSum(incomes, person1Name, person2Name, Person2Part2)
              == IncomeOf(incomes, person2Name) - Part1IncomeOf(incomes, person2Name)
    ensures person1Name == person2Name ==>
              BucketSum(incomes, person1Name, person2Name, Person2Part1) == 0.0 &&
              BucketSum(incomes, person1Name, person2Name, Person2Part2) == 0.0
  {
    if incomes != [] {
      BucketsByPerson(incomes[..|incomes| - 1], person1Name, person2Name);
    }
  }

  /** The income loop of `getMonthCalculations`: four running sums. */
  method BucketIncome(incomes: seq<Income>, person1Name: string, person2Name: string) returns (b: IncomeBuckets)
    ensures b.person1Part1 == BucketSum(incomes, person1Name, person2Name, Person1Part1)
    ensures b.person1Part2 == BucketSum(incomes, person1Name, person2Name, Person1Part2)
    ensures b.person2Part1 == BucketSum(incomes, person1Name, person2Name, Person2Part1)
    ensures b.person2Part2 == BucketSum(incomes, person1Name, person2Name, Person2Part2)
  {
    var person1IncomePart1, person1IncomePart2, person2IncomePart1, person2IncomePart2 := 0.0, 0.0, 0.0, 0.0;
    for i := 0 to |incomes|
      invariant person1IncomePart1 == BucketSum(incomes[..i], person1Name, person2Name, Person1Part1)
      invariant person1IncomePart2 == BucketSum(incomes[..i], person1Name, person2Name, Person1Part2)
      invariant person2IncomePart1 == BucketSum(incomes[..i], person1Name, person2Name, Person2Part1)
      invariant person2IncomePart2 == BucketSum(incomes[..i], person1Name, person2Name, Person2Part2)
    {
      assert incomes[..i + 1][..i] == incomes[..i];
      var income := incomes[i];
      if income.personName == person1Name {
        if income.paymentPeriod == "part1" {
          person1IncomePart1 := person1IncomePart1 + income.amount;
        } else {
          person1IncomePart2 := person1IncomePart2 + income.amount;
        }
      } else if income.personName == person2Name {
        if income.paymentPeriod == "part1" {
          person2IncomePart1 := person2IncomePart1 + income.amount;
        } else {
          person2IncomePart2 := person2IncomePart2 + income.amount;
        }
      }
    }
    assert incomes[..|incomes|] == incomes;
    b := IncomeBuckets(person1IncomePart1, person1IncomePart2, person2IncomePart1, person2IncomePart2);
  }

  // ---------------------------------------------------------------------------
  // getMonthCalculations

  /** The in-memory settings used when the user has no settings row: an even
      split and zero balances. The object in the service sets only the columns
      the calculation reads; the remaining columns get neutral values here. */
  function FallbackSettings(userId: string): Settings {
    Settings(userId, 50.0, 50.0, false, "Person 1", "Person 2", [],
             0.0, 0.0, 0.0, 0.0, 0.0, 0.0, 0.0, "", "", "")
  }

  function EffectiveSettings(userId: string, settings: Option<Settings>): Settings {
    if settings.Some? then settings.value else FallbackSettings(userId)
  }

  /** The four income buckets of the people the settings name. */
  function BucketsOf(incomes: seq<Income>, s: Settings): IncomeBuckets {
    IncomeBuckets(BucketSum(incomes, s.person1Name, s.person2Name, Person1Part1),
                  BucketSum(incomes, s.person1Name, s.person2Name, Person1Part2),
                  BucketSum(incomes, s.person1Name, s.person2Name, Person2Part1),
                  BucketSum(incomes, s.person1Name, s.person2Name, Person2Part2))
  }

  /** What the report says about one account: its totals, each person's
      share by the ratio, and each share split by that person's income. */
  ghost predicate AccountReportHolds(a: AccountCalculation, t: Totals, s: Settings, b: IncomeBuckets,
                                     currentBalance: real) {
    && a.totalExpenses == t.total
    && a.automaticPayments == t.automatic
    && a.manualPayments == t.manual
    && a.automaticPayments + a.manualPayments == a.totalExpenses
    && a.currentBalance == currentBalance
    && a.balanceAfterExpenses == currentBalance - a.totalExpenses
    && a.person1Share.total == a.totalExpenses * s.splitRatioPerson1 / 100.0
    && a.person2Share.total == a.totalExpenses * s.splitRatioPerson2 / 100.0
    && a.person1Share == SplitByIncome(a.person1Share.total, b.person1Part1, b.person1Part2)
    && a.person2Share == SplitByIncome(a.person2Share.total, b.person2Part1, b.person2Part2)
  }

  /** What the report says about one person. */
  ghost predicate PersonReportHolds(p: PersonCalculation, incomePart1: real, incomePart2: real) {
    && p.incomePart1 == incomePart1
    && p.incomePart2 == incomePart2
    && p.totalIncome == incomePart1 + incomePart2
    && p.contributionPart1 + p.contributionPart2 == p.totalContribution
    && p.remaining == p.totalIncome - p.totalContribution
    && p.remainingAfterPart1 == p.incomePart1 - p.contributionPart1
    && p.remainingAfterPart2 == p.incomePart2 - p.contributionPart2
  }

  /** One account's entry of the report: its totals, each person's share of
      them and the balance left once they are paid. */
  function AccountReport(t: Totals, s: Settings, b: IncomeBuckets, currentBalance: real): (a: AccountCalculation)
    requires t.total == t.automatic + t.manual
    ensures AccountReportHolds(a, t, s, b, currentBalance)
    ensures s.splitRatioPerson1 + s.splitRatioPerson2 == 100.0 ==>
              a.person1Share.total + a.person2Share.total == a.totalExpenses
    ensures s.splitRatioPerson1 == s.splitRatioPerson2 ==> a.person1Share.total == a.person2Share.total
  {
    var c := AccountContributions(t.total, s, b.person1Part1, b.person1Part2, b.person2Part1, b.person2Part2);
    AccountCalculation(t.total, c.person1, c.person2, t.automatic, t.manual, currentBalance, currentBalance - t.total)
  }

  /** One person's entry of the report, from that person's income in each
      period and contributions summed over the four accounts. */
  function PersonReport(incomePart1: real, incomePart2: real,
                        contributionPart1: real, contributionPart2: real, totalContribution: real): (p: PersonCalculation)
    requires contributionPart1 + contributionPart2 == totalContribution
    ensures PersonReportHolds(p, incomePart1, incomePart2)
    ensures p.totalContribution == totalContribution && p.contributionPart1 == contributionPart1
  {
    PersonCalculation(
      incomePart1 + incomePart2, incomePart1, incomePart2,
      totalContribution, contributionPart1, contributionPart2,
      incomePart1 + incomePart2 - totalContribution,
      incomePart1 - contributionPart1, incomePart2 - contributionPart2)
  }

  /** The month report built from the four account totals and the four
      income buckets: each account's entry, each person's entry with the
      contributions summed over the accounts, and the month's totals. */
  function MonthReport(month: string, s: Settings, b: IncomeBuckets,
                       checkingTotals: Totals, creditCardTotals: Totals,
                       lineOfCreditTotals: Totals, studentLineOfCreditTotals: Totals): (r: MonthlyCalculation)
    requires checkingTotals.total == checkingTotals.automatic + checkingTotals.manual
    requires creditCardTotals.total == creditCardTotals.automatic + creditCardTotals.manual
    requires lineOfCreditTotals.total == lineOfCreditTotals.automatic + lineOfCreditTotals.manual
    requires studentLineOfCreditTotals.total
             == studentLineOfCreditTotals.automatic + studentLineOfCreditTotals.manual
    ensures r.month == month
    ensures && AccountReportHolds(r.checking, checkingTotals, s, b, s.checkingBalance)
            && AccountReportHolds(r.creditCard, creditCardTotals, s, b, s.creditCardBalance)
            && AccountReportHolds(r.lineOfCredit, lineOfCreditTotals, s, b, s.lineOfCreditBalance)
            && AccountReportHolds(r.studentLineOfCredit, studentLineOfCreditTotals, s, b,
                                  s.studentLineOfCreditBalance)
    ensures && PersonReportHolds(r.person1, b.person1Part1, b.person1Part2)
            && PersonReportHolds(r.person2, b.person2Part1, b.person2Part2)
    ensures r.totalExpenses == r.checking.totalExpenses + r.creditCard.totalExpenses
                               + r.lineOfCredit.totalExpenses + r.studentLineOfCredit.totalExpenses
    ensures r.totalIncome == r.person1.totalIncome + r.person2.totalIncome
    ensures r.balance == r.totalIncome - r.totalExpenses
    ensures r.person1.totalContribution == r.checking.person1Share.total + r.creditCard.person1Share.total
                                           + r.lineOfCredit.person1Share.total + r.studentLineOfCredit.person1Share.total
    ensures r.person2.totalContribution == r.checking.person2Share.total + r.creditCard.person2Share.total
                                           + r.lineOfCredit.person2Share.total + r.studentLineOfCredit.person2Share.total
    ensures r.person1.contributionPart1 == r.checking.person1Share.part1 + r.creditCard.person1Share.part1
                                           + r.lineOfCredit.person1Share.part1 + r.studentLineOfCredit.person1Share.part1
    ensures r.person2.contributionPart1 == r.checking.person2Share.part1 + r.creditCard.person2Share.part1
                                           + r.lineOfCredit.person2Share.part1 + r.studentLineOfCredit.person2Share.part1
    ensures s.splitRatioPerson1 + s.splitRatioPerson2 == 100.0 ==>
              r.person1.totalContribution + r.person2.totalContribution == r.totalExpenses
    ensures s.splitRatioPerson1 == s.splitRatioPerson2 ==>
              r.person1.totalContribution == r.person2.totalContribution
  {
    var checking := AccountReport(checkingTotals, s, b, s.checkingBalance);
    var creditCard := AccountReport(creditCardTotals, s, b, s.creditCardBalance);
    var lineOfCredit := AccountReport(lineOfCreditTotals, s, b, s.lineOfCreditBalance);
    var studentLineOfCredit := AccountReport(studentLineOfCreditTotals, s, b, s.studentLineOfCreditBalance);
    var totalIncome := b.person1Part1 + b.person1Part2 + b.person2Part1 + b.person2Part2;
    var totalExpenses := checkingTotals.total + creditCardTotals.total
                         + lineOfCreditTotals.total + studentLineOfCreditTotals.total;
    var person1 := PersonReport(
      b.person1Part1, b.person1Part2,
      checking.person1Share.part1 + creditCard.person1Share.part1
        + lineOfCredit.person1Share.part1 + studentLineOfCredit.person1Share.part1,
      checking.person1Share.part2 + creditCard.person1Share.part2
        + lineOfCredit.person1Share.part2 + studentLineOfCredit.person1Share.part2,
      checking.person1Share.total + creditCard.person1Share.total
        + lineOfCredit.person1Share.total + studentLineOfCredit.person1Share.total);
    var person2 := PersonReport(
      b.person2Part1, b.person2Part2,
      checking.person2Share.part1 + creditCard.person2Share.part1
        + lineOfCredit.person2Share.part1 + studentLineOfCredit.person2Share.part1,
      checking.person2Share.part2 + creditCard.person2Share.part2
        + lineOfCredit.person2Share.part2 + studentLineOfCredit.person2Share.part2,
      checking.person2Share.total + creditCard.person2Share.total
        + lineOfCredit.person2Share.total + studentLineOfCredit.person2Share.total);
    MonthlyCalculation(month, checking, creditCard, lineOfCredit, studentLineOfCredit,
                       totalIncome, totalExpenses, totalIncome - totalExpenses, person1, person2)
  }

  /** `getMonthCalculations` for one user and one `YYYY-MM` month, given the
      user's unarchived expenses, the user's income rows of that month and the
      settings row if there is one: the report of the account totals and the
      income buckets under the effective settings. Without a settings row the
      balances are 0 and the two people pay equal halves of the expenses. */
  method GetMonthCalculations(userId: string, monthStr: string, expenses: seq<Expense>,
                              incomes: seq<Income>, settings: Option<Settings>)
    returns (r: MonthlyCalculation)
    requires Months.IsMonthFormat(monthStr)
    ensures var s := EffectiveSettings(userId, settings);
            var m := Months.ParseMonth(monthStr).month;
            r == MonthReport(monthStr, s, BucketsOf(incomes, s),
                             AccountTotalOf(expenses, Checking, m), AccountTotalOf(expenses, CreditCard, m),
                             AccountTotalOf(expenses, LineOfCredit, m), AccountTotalOf(expenses, StudentLineOfCredit, m))
    ensures settings.None? ==>
              && r.checking.currentBalance == 0.0 && r.creditCard.currentBalance == 0.0
              && r.lineOfCredit.currentBalance == 0.0 && r.studentLineOfCredit.currentBalance == 0.0
              && r.person1.totalContribution == r.person2.totalContribution
              && r.person1.totalContribution + r.person2.totalContribution == r.totalExpenses
  {
    var monthNum := Months.ParseMonth(monthStr).month;
    var s := if settings.Some? then settings.value else FallbackSettings(userId);
    assert s == EffectiveSettings(userId, settings);

    var income := BucketIncome(incomes, s.person1Name, s.person2Name);
    assert income == BucketsOf(incomes, s);

    var checkingTotals := CalculateAccountTotal(expenses, Checking, monthNum);
    var creditCardTotals := CalculateAccountTotal(expenses, CreditCard, monthNum);
    var lineOfCreditTotals := CalculateAccountTotal(expenses, LineOfCredit, monthNum);
    var studentLineOfCreditTotals := CalculateAccountTotal(expenses, StudentLineOfCredit, monthNum);

    r := MonthReport(monthStr, s, income, checkingTotals, creditCardTotals,
                     lineOfCreditTotals, studentLineOfCreditTotals);
  }
}
