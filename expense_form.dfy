/** The expense form of the frontend (`ExpenseForm.tsx`): its state (the
    fields being edited and the error shown under each), the change handler
    with its reset of the months for a monthly expense, the month toggle, and
    the check made before the form is sent. */
module ExpenseForm {

  predicate Sorted(s: seq<int>) {
    forall i, j :: 0 <= i < j < |s| ==> s[i] <= s[j]
  }

  predicate NoDuplicates(s: seq<int>) {
    forall i, j :: 0 <= i < j < |s| ==> s[i] != s[j]
  }

  /** What toggling `month` leaves, as a bag: one occurrence less when the
      month is there, one more when it is not. */
  function ToggledBag(months: seq<int>, month: int): multiset<int> {
    if month in months then multiset(months) - multiset{month} else multiset(months) + multiset{month}
  }

  // ---------------------------------------------------------------------------
  // Sorting and the month toggle

  /** `sort((a, b) => a - b)`: ascending numeric order, in place. */
  method SortAscending(a: array<int>)
    modifies a
    ensures Sorted(a[..])
    ensures multiset(a[..]) == multiset(old(a[..]))
  {
    var i := 0;
    while i < a.Length
      invariant 0 <= i <= a.Length
      invariant forall p, q :: 0 <= p < q < i ==> a[p] <= a[q]
      invariant multiset(a[..]) == multiset(old(a[..]))
    {
      var j := i;
      while j > 0 && a[j - 1] > a[j]
        invariant 0 <= j <= i
        invariant forall p, q :: 0 <= p < q <= i && p != j && q != j ==> a[p] <= a[q]
        invariant forall q :: j < q <= i ==> a[j] < a[q]
        invariant multiset(a[..]) == multiset(old(a[..]))
      {
        SwapDown(a, j);
        j := j - 1;
      }
      i := i + 1;
    }
  }

  /** Exchanges `a[j - 1]` and `a[j]`. */
  method SwapDown(a: array<int>, j: int)
    requires 0 < j < a.Length
    modifies a
    ensures a[..] == old(a[..])[j - 1 := old(a[j])][j := old(a[j - 1])]
    ensures multiset(a[..]) == multiset(old(a[..]))
  {
    a[j - 1], a[j] := a[j], a[j - 1];
  }

  /** `indexOf`: the first position holding `x`, or -1. */
  method IndexOf(s: seq<int>, x: int) returns (index: int)
    ensures index == -1 <==> x !in s
    ensures index != -1 ==> 0 <= index < |s| && s[index] == x && x !in s[..index]
  {
    index := 0;
    while index < |s|
      invariant 0 <= index <= |s|
      invariant x !in s[..index]
    {
      if s[index] == x {
        return;
      }
      index := index + 1;
    }
    assert s[..index] == s;
    index := -1;
  }

  /** `handleMonthToggle`'s list: the month taken out (its first occurrence)
      when present, added when absent, and the result sorted. */
  method ToggleMonths(months: seq<int>, month: int) returns (r: seq<int>)
    ensures Sorted(r)
    ensures multiset(r) == ToggledBag(months, month)
  {
    var index := IndexOf(months, month);
    var current: seq<int>;
    if index > -1 {
      current := months[..index] + months[index + 1..];
      assert months == months[..index] + [month] + months[index + 1..];
    } else {
      current := months + [month];
    }
    var a := new int[|current|](i requires 0 <= i < |current| => current[i]);
    assert a[..] == current;
    SortAscending(a);
    r := a[..];
  }

  // ---------------------------------------------------------------------------
  // Lemmas about the toggle

  /** The least element of a sorted sequence is its first. */
  lemma SortedHeadIsLeast(s: seq<int>, x: int)
    requires Sorted(s) && x in multiset(s)
    ensures s[0] <= x
  {
    var i :| 0 <= i < |s| && s[i] == x;
    if i > 0 {
      assert s[0] <= s[i];
    }
  }

  /** A sorted sequence is determined by its elements. */
  lemma {:induction false} SortedUnique(a: seq<int>, b: seq<int>)
    requires Sorted(a) && Sorted(b) && multiset(a) == multiset(b)
    ensures a == b
    decreases |a|
  {
    assert |a| == |b| by {
      assert |multiset(a)| == |a| && |multiset(b)| == |b|;
    }
    if a != [] {
      SameHeads(a, b);
      SortedTail(a);
      SortedTail(b);
      SortedUnique(a[1..], b[1..]);
      assert a == [a[0]] + a[1..] && b == [b[0]] + b[1..];
    }
  }

  /** Two non-empty sorted sequences with the same elements have the same
      first element. */
  lemma SameHeads(a: seq<int>, b: seq<int>)
    requires Sorted(a) && Sorted(b) && multiset(a) == multiset(b) && a != [] && b != []
    ensures a[0] == b[0]
  {
    assert a[0] in multiset(b) && b[0] in multiset(a);
    SortedHeadIsLeast(b, a[0]);
    SortedHeadIsLeast(a, b[0]);
  }

  /** The tail of a sorted sequence is sorted and holds its elements but the
      first. */
  lemma SortedTail(a: seq<int>)
    requires Sorted(a) && a != []
    ensures Sorted(a[1..]) && multiset(a[1..]) == multiset(a) - multiset{a[0]}
  {
    assert a == [a[0]] + a[1..];
  }

  /** A month occurs at most once in a list without repeats. */
  lemma {:induction false} NoDuplicatesCountsOnce(s: seq<int>, x: int)
    requires NoDuplicates(s)
    ensures multiset(s)[x] <= 1
  {
    if s != [] {
      assert s == [s[0]] + s[1..];
      assert NoDuplicates(s[1..]);
      NoDuplicatesCountsOnce(s[1..], x);
      if s[0] == x {
        assert x !in s[1..];
      }
    }
  }

  /** On a sorted list without repeats, toggling a month twice gives the list
      back: whichever of the two lists the second toggle could produce is
      sorted and holds the original elements. */
  lemma ToggleTwiceRestores(months: seq<int>, month: int, once: seq<int>, twice: seq<int>)
    requires Sorted(months) && NoDuplicates(months)
    requires Sorted(once) && multiset(once) == ToggledBag(months, month)
    requires Sorted(twice) && multiset(twice) == ToggledBag(once, month)
    ensures twice == months
  {
    if month in months {
      NoDuplicatesCountsOnce(months, month);
      assert multiset(once)[month] == 0;
      assert month !in once;
    } else {
      assert month in multiset(once);
    }
    assert multiset(twice) == multiset(months);
    SortedUnique(twice, months);
  }

  /** A list the month toggle starts from without repeats has none after it. */
  lemma ToggleKeepsNoDuplicates(months: seq<int>, month: int, r: seq<int>)
    requires NoDuplicates(months)
    requires multiset(r) == ToggledBag(months, month)
    ensures NoDuplicates(r)
  {
    forall x
      ensures multiset(r)[x] <= 1
    {
      NoDuplicatesCountsOnce(months, x);
      if month !in months {
        assert multiset(months)[month] == 0;
      }
    }
    CountsOnceNoDuplicates(r);
  }

  /** A value at two positions is counted at least twice. */
  lemma RepeatCountedTwice(s: seq<int>, i: int, j: int)
    requires 0 <= i < j < |s|
    ensures s[i] == s[j] ==> multiset(s)[s[i]] >= 2
  {
    assert s == s[..i] + [s[i]] + s[i + 1..j] + [s[j]] + s[j + 1..];
    assert multiset(s) == multiset(s[..i]) + multiset{s[i]} + multiset(s[i + 1..j])
                          + multiset{s[j]} + multiset(s[j + 1..]);
  }

  /** A list in which no value is counted twice has no repeats. */
  lemma CountsOnceNoDuplicates(s: seq<int>)
    requires forall x :: multiset(s)[x] <= 1
    ensures NoDuplicates(s)
  {
    forall i, j | 0 <= i < j < |s|
      ensures s[i] != s[j]
    {
      RepeatCountedTwice(s, i, j);
    }
  }

  // ---------------------------------------------------------------------------
  // The form's data and the change handler

  const AllMonths: seq<int> := [1, 2, 3, 4, 5, 6, 7, 8, 9, 10, 11, 12]

  /** The fields of the form (`CreateExpenseInput`). The amount is the number
      the amount input gives, already turned into a number. */
  datatype FormData = FormData(
    name: string,
    category: string,
    amount: real,
    accountType: string,
    paymentType: string,
    frequency: string,
    activeMonths: seq<int>,
    notes: string)

  datatype Field = Name | Category | Amount | AccountType | PaymentType | Frequency | ActiveMonths | Notes

  /** The value of one field, whatever its type. */
  datatype FieldValue = Text(text: string) | Number(number: real) | MonthList(months: seq<int>)

  function Value(d: FormData, f: Field): FieldValue {
    match f
    case Name => Text(d.name)
    case Category => Text(d.category)
    case Amount => Number(d.amount)
    case AccountType => Text(d.accountType)
    case PaymentType => Text(d.paymentType)
    case Frequency => Text(d.frequency)
    case ActiveMonths => MonthList(d.activeMonths)
    case Notes => Text(d.notes)
  }

  /** A call of `handleChange`: the field named and the value given for it. */
  datatype Change =
    | SetName(name: string)
    | SetCategory(category: string)
    | SetAmount(amount: real)
    | SetAccountType(accountType: string)
    | SetPaymentType(paymentType: string)
    | SetFrequency(frequency: string)
    | SetActiveMonths(activeMonths: seq<int>)
    | SetNotes(notes: string)
  {
    function Field(): Field {
      match this
      case SetName(_) => Name
      case SetCategory(_) => Category
      case SetAmount(_) => Amount
      case SetAccountType(_) => AccountType
      case SetPaymentType(_) => PaymentType
      case SetFrequency(_) => Frequency
      case SetActiveMonths(_) => ActiveMonths
      case SetNotes(_) => Notes
    }

    function NewValue(): FieldValue {
      match this
      case SetName(s) => Text(s)
      case SetCategory(s) => Text(s)
      case SetAmount(x) => Number(x)
      case SetAccountType(s) => Text(s)
      case SetPaymentType(s) => Text(s)
      case SetFrequency(s) => Text(s)
      case SetActiveMonths(ms) => MonthList(ms)
      case SetNotes(s) => Text(s)
    }

    /** Choosing the monthly frequency also selects all twelve months. */
    predicate ResetsMonths() {
      SetFrequency? && frequency == "monthly"
    }
  }

  /** The data after `handleChange`: the named field takes the value, the
      monthly frequency selects all months, and nothing else changes. */
  function Apply(d: FormData, c: Change): (r: FormData)
    ensures Value(r, c.Field()) == c.NewValue()
    ensures c.ResetsMonths() ==> r.activeMonths == AllMonths
    ensures forall f :: f != c.Field() && !(f == ActiveMonths && c.ResetsMonths()) ==> Value(r, f) == Value(d, f)
  {
    match c
    case SetName(s) => d.(name := s)
    case SetCategory(s) => d.(category := s)
    case SetAmount(x) => d.(amount := x)
    case SetAccountType(s) => d.(accountType := s)
    case SetPaymentType(s) => d.(paymentType := s)
    case SetFrequency(s) =>
      if s == "monthly" then d.(frequency := s, activeMonths := AllMonths) else d.(frequency := s)
    case SetActiveMonths(ms) => d.(activeMonths := ms)
    case SetNotes(s) => d.(notes := s)
  }

  /** A monthly expense whose months are all selected keeps them through any
      change but a change of the months themselves, which the form only
      offers for the other frequencies. */
  lemma MonthlyKeepsAllMonths(d: FormData, c: Change)
    requires d.frequency == "monthly" ==> d.activeMonths == AllMonths
    requires !c.SetActiveMonths?
    ensures var r := Apply(d, c); r.frequency == "monthly" ==> r.activeMonths == AllMonths
  {
    var r := Apply(d, c);
    assert Value(r, Frequency) == Value(d, Frequency) || c.Field() == Frequency;
    assert Value(r, ActiveMonths) == Value(d, ActiveMonths) || c.ResetsMonths();
  }

  /** The errors after `handleChange`: the entry of the changed field is
      emptied when it held a message; no other entry changes and none is
      added. */
  function ClearedError(errors: map<Field, ErrorEntry>, f: Field): (r: map<Field, ErrorEntry>)
    ensures r.Keys == errors.Keys
    ensures forall g :: g in errors && g != f ==> r[g] == errors[g]
    ensures f in r ==> r[f] == Cleared
  {
    if f in errors && errors[f].Shown? then errors[f := Cleared] else errors
  }

  // ---------------------------------------------------------------------------
  // Validation

  /** The characters `String.prototype.trim` removes: the white space and the
      line terminators of section 12.2 and 12.3 of ECMAScript. */
  predicate IsWhitespace(c: char) {
    || c == '\t' || c == '\U{000B}' || c == '\U{000C}' || c == ' ' || c == '\U{00A0}' || c == '\U{FEFF}'
    || c == '\U{1680}' || ('\U{2000}' <= c <= '\U{200A}') || c == '\U{202F}' || c == '\U{205F}'
    || c == '\U{3000}' || c == '\n' || c == '\r' || c == '\U{2028}' || c == '\U{2029}'
  }

  function TrimStart(s: string): (r: string)
    ensures |r| <= |s| && r == s[|s| - |r|..]
    ensures forall i :: 0 <= i < |s| - |r| ==> IsWhitespace(s[i])
    ensures r != "" ==> !IsWhitespace(r[0])
  {
    if s != "" && IsWhitespace(s[0]) then TrimStart(s[1..]) else s
  }

  function TrimEnd(s: string): (r: string)
    ensures |r| <= |s| && r == s[..|r|]
    ensures forall i :: |r| <= i < |s| ==> IsWhitespace(s[i])
    ensures r != "" ==> !IsWhitespace(r[|r| - 1])
  {
    if s != "" && IsWhitespace(s[|s| - 1]) then TrimEnd(s[..|s| - 1]) else s
  }

  /** `trim()`: the text without white space at either end. */
  function Trim(s: string): (r: string)
    ensures r == "" <==> forall i :: 0 <= i < |s| ==> IsWhitespace(s[i])
    ensures r != "" ==> !IsWhitespace(r[0]) && !IsWhitespace(r[|r| - 1])
  {
    TrimEnd(TrimStart(s))
  }

  /** `!text.trim()`: the text is empty once trimmed. */
  predicate IsBlank(s: string) {
    Trim(s) == ""
  }

  /** The problems `validate` reports, one per checked field. */
  datatype Problem = NameRequired | CategoryRequired | AmountNotPositive | NoMonthSelected {
    /** The message shown under the field. */
    function Text(): (m: string)
      ensures m != ""
    {
      match this
      case NameRequired => "Name is required"
      case CategoryRequired => "Category is required"
      case AmountNotPositive => "Amount must be greater than 0"
      case NoMonthSelected => "At least one month must be selected"
    }
  }

  /** An entry of the errors record: a problem's message, or the empty text
      the change handler leaves, which shows nothing. */
  datatype ErrorEntry = Shown(problem: Problem) | Cleared {
    function Text(): string {
      if Shown? then problem.Text() else ""
    }
  }

  /** One check of `validate`: the message is filed under the field when
      the check fails. */
  function AddError(e: map<Field, ErrorEntry>, fails: bool, f: Field, problem: Problem): map<Field, ErrorEntry> {
    if fails then e[f := Shown(problem)] else e
  }

  /** The errors of `validate`, given the outcome of each of its checks. */
  function ErrorsFor(nameBlank: bool, categoryBlank: bool, amountNotPositive: bool, noMonth: bool)
    : (r: map<Field, ErrorEntry>)
    ensures Name in r <==> nameBlank
    ensures Category in r <==> categoryBlank
    ensures Amount in r <==> amountNotPositive
    ensures ActiveMonths in r <==> noMonth
    ensures AccountType !in r && PaymentType !in r && Frequency !in r && Notes !in r
    ensures Name in r ==> r[Name] == Shown(NameRequired)
    ensures Category in r ==> r[Category] == Shown(CategoryRequired)
    ensures Amount in r ==> r[Amount] == Shown(AmountNotPositive)
    ensures ActiveMonths in r ==> r[ActiveMonths] == Shown(NoMonthSelected)
  {
    var e1 := AddError(map[], nameBlank, Name, NameRequired);
    var e2 := AddError(e1, categoryBlank, Category, CategoryRequired);
    var e3 := AddError(e2, amountNotPositive, Amount, AmountNotPositive);
    AddError(e3, noMonth, ActiveMonths, NoMonthSelected)
  }

  /** The errors `validate` finds, field by field. The months are checked
      only for a frequency other than monthly. */
  function ValidationErrors(d: FormData): (r: map<Field, ErrorEntry>)
    ensures Name in r <==> IsBlank(d.name)
    ensures Category in r <==> IsBlank(d.category)
    ensures Amount in r <==> d.amount <= 0.0
    ensures ActiveMonths in r <==> d.frequency != "monthly" && |d.activeMonths| == 0
    ensures AccountType !in r && PaymentType !in r && Frequency !in r && Notes !in r
    ensures Name in r ==> r[Name] == Shown(NameRequired)
    ensures Category in r ==> r[Category] == Shown(CategoryRequired)
    ensures Amount in r ==> r[Amount] == Shown(AmountNotPositive)
    ensures ActiveMonths in r ==> r[ActiveMonths] == Shown(NoMonthSelected)
  {
    ErrorsFor(IsBlank(d.name), IsBlank(d.category), d.amount <= 0.0,
              d.frequency != "monthly" && |d.activeMonths| == 0)
  }

  /** The form may be sent exactly when the name and the category hold more
      than white space, the amount is positive, and a frequency other than
      monthly has at least one month. */
  predicate CanSubmit(d: FormData) {
    && !IsBlank(d.name)
    && !IsBlank(d.category)
    && d.amount > 0.0
    && (d.frequency == "monthly" || |d.activeMonths| > 0)
  }

  lemma ValidationErrorsEmptyIff(d: FormData)
    ensures ValidationErrors(d) == map[] <==> CanSubmit(d)
  {
    var r := ValidationErrors(d);
    if CanSubmit(d) {
      assert forall f :: f !in r;
    } else {
      assert Name in r || Category in r || Amount in r || ActiveMonths in r;
    }
  }

  /** A name of no-break spaces only is refused like an empty one. */
  lemma NoBreakSpaceNameRefused(d: FormData)
    requires d.name == "\U{00A0}\U{00A0}"
    ensures Name in ValidationErrors(d)
  {
    assert IsWhitespace(d.name[0]) && IsWhitespace(d.name[1]);
  }

  /** A monthly expense is accepted with no month selected. */
  lemma MonthlyNeedsNoMonths(d: FormData)
    requires d.frequency == "monthly"
    ensures ActiveMonths !in ValidationErrors(d)
  {
  }

  /** The record `validate` fills, one check after the other, given the
      outcome of each check. */
  method CollectErrors(nameBlank: bool, categoryBlank: bool, amountNotPositive: bool, noMonth: bool)
    returns (newErrors: map<Field, ErrorEntry>)
    ensures newErrors == ErrorsFor(nameBlank, categoryBlank, amountNotPositive, noMonth)
  {
    newErrors := map[];
    if nameBlank {
      newErrors := newErrors[Name := Shown(NameRequired)];
    }
    if categoryBlank {
      newErrors := newErrors[Category := Shown(CategoryRequired)];
    }
    if amountNotPositive {
      newErrors := newErrors[Amount := Shown(AmountNotPositive)];
    }
    if noMonth {
      newErrors := newErrors[ActiveMonths := Shown(NoMonthSelected)];
    }
  }

  // ---------------------------------------------------------------------------
  // The form's state

  /** The state of the form: the data being edited and the message under
      each field. */
  class ExpenseFormState {
    var formData: FormData
    var errors: map<Field, ErrorEntry>

    /** A new form: empty texts, amount 0, a monthly manual expense on the
        checking account with all twelve months, and no error. */
    constructor ()
      ensures formData == FormData("", "", 0.0, "checking", "manual", "monthly", AllMonths, "")
      ensures errors == map[]
    {
      formData := FormData("", "", 0.0, "checking", "manual", "monthly", AllMonths, "");
      errors := map[];
    }

    /** `handleChange`. */
    method HandleChange(c: Change)
      modifies this
      ensures formData == Apply(old(formData), c)
      ensures errors == ClearedError(old(errors), c.Field())
    {
      formData := Apply(formData, c);
      if c.Field() in errors && errors[c.Field()].Shown? {
        errors := errors[c.Field() := Cleared];
      }
    }

    /** `handleMonthToggle`: the toggled, sorted months go through the change
        handler; a list without repeats keeps none. */
    method HandleMonthToggle(month: int)
      modifies this
      ensures formData == old(formData).(activeMonths := formData.activeMonths)
      ensures Sorted(formData.activeMonths)
      ensures multiset(formData.activeMonths) == ToggledBag(old(formData.activeMonths), month)
      ensures NoDuplicates(old(formData.activeMonths)) ==> NoDuplicates(formData.activeMonths)
      ensures errors == ClearedError(old(errors), ActiveMonths)
    {
      var current := ToggleMonths(formData.activeMonths, month);
      if NoDuplicates(formData.activeMonths) {
        ToggleKeepsNoDuplicates(formData.activeMonths, month, current);
      }
      HandleChange(SetActiveMonths(current));
    }

    /** `validate`: the errors found replace those shown, and the form may be
        sent when there are none. */
    method Validate() returns (ok: bool)
      modifies this
      ensures formData == old(formData)
      ensures errors == ValidationErrors(formData)
      ensures ok <==> CanSubmit(formData)
    {
      var newErrors := CollectErrors(IsBlank(formData.name), IsBlank(formData.category), formData.amount <= 0.0,
                                     formData.frequency != "monthly" && |formData.activeMonths| == 0);
      assert newErrors == ValidationErrors(formData);
      ValidationErrorsEmptyIff(formData);
      errors := newErrors;
      ok := |newErrors| == 0;
    }
  }
}
