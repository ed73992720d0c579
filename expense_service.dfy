/** The expense service (`expense.service.ts`): the filtered list of a user's
    expenses, the lookup by id, creation, partial update, the soft delete that
    only archives, and the list of distinct categories.

    The relational store is the class `ExpenseStore`, holding every user's
    rows in a sequence; reads are functions of that sequence. Result order is
    the store's order (the service's `orderBy` is not modelled). */
module ExpenseService {
  import opened Records

  datatype ExpenseInput = ExpenseInput(
    name: string,
    category: string,
    amount: real,
    accountType: string,
    paymentType: string,
    frequency: string,
    activeMonths: seq<real>,
    notes: Option<string>)

  /** A partial update: `None` leaves the column as it is. */
  datatype ExpenseUpdate = ExpenseUpdate(
    name: Option<string>,
    category: Option<string>,
    amount: Option<real>,
    accountType: Option<string>,
    paymentType: Option<string>,
    frequency: Option<string>,
    activeMonths: Option<seq<real>>,
    notes: Option<string>,
    isArchived: Option<bool>)

  /** The query filters after validation; every one is optional. */
  datatype ExpenseFilters = ExpenseFilters(
    category: Option<string>,
    accountType: Option<string>,
    paymentType: Option<string>,
    isArchived: Option<bool>,
    search: Option<string>)

  /** A string filter takes part only when it is a non-empty string, as
      JavaScript's truthiness test has it. */
  predicate Given(f: Option<string>) {
    f.Some? && f.value != ""
  }

  // ---------------------------------------------------------------------------
  // Case-insensitive containment

  /** Lower-case folding of the ASCII letters. */
  function FoldChar(c: char): char {
    if 'A' <= c <= 'Z' then (c as int - 'A' as int + 'a' as int) as char else c
  }

  function Fold(s: string): (r: string)
    ensures |r| == |s|
  {
    if s == [] then [] else [FoldChar(s[0])] + Fold(s[1..])
  }

  predicate StartsWith(text: string, pattern: string) {
    |pattern| <= |text| && text[..|pattern|] == pattern
  }

  /** `pattern` occurs in `text` from position `i` on. */
  predicate OccursAt(text: string, pattern: string, i: int) {
    0 <= i && i + |pattern| <= |text| && text[i..i + |pattern|] == pattern
  }

  /** `text` has `pattern` as a contiguous part. */
  predicate Contains(text: string, pattern: string)
    decreases |text|
  {
    StartsWith(text, pattern) || (text != [] && Contains(text[1..], pattern))
  }

  /** The store's `contains` in `insensitive` mode. */
  predicate ContainsInsensitive(text: string, pattern: string) {
    Contains(Fold(text), Fold(pattern))
  }

  /** The search condition: the name or the notes contain the text; an
      expense without notes can match on its name only. */
  predicate SearchMatches(e: Expense, search: string) {
    ContainsInsensitive(e.name, search) || (e.notes.Some? && ContainsInsensitive(e.notes.value, search))
  }

  // ---------------------------------------------------------------------------
  // Reads

  /** The `where` object `getExpenses` builds: the owner and the archive flag
      always, the other conditions only for filters that are given. */
  datatype Where = Where(
    userId: string,
    isArchived: bool,
    category: Option<string>,
    accountType: Option<string>,
    paymentType: Option<string>,
    search: Option<string>)

  function BuildWhere(userId: string, f: ExpenseFilters): Where {
    Where(userId,
          if f.isArchived.Some? then f.isArchived.value else false,
          if Given(f.category) then f.category else None,
          if Given(f.accountType) then f.accountType else None,
          if Given(f.paymentType) then f.paymentType else None,
          if Given(f.search) then f.search else None)
  }

  predicate Satisfies(e: Expense, w: Where) {
    && e.userId == w.userId
    && e.isArchived == w.isArchived
    && (w.category.Some? ==> e.category == w.category.value)
    && (w.accountType.Some? ==> e.accountType == w.accountType.value)
    && (w.paymentType.Some? ==> e.paymentType == w.paymentType.value)
    && (w.search.Some? ==> SearchMatches(e, w.search.value))
  }

  function Select(records: seq<Expense>, w: Where): (r: seq<Expense>)
    ensures forall x :: x in r <==> x in records && Satisfies(x, w)
  {
    if records == [] then []
    else
      var last := records[|records| - 1];
      assert records == records[..|records| - 1] + [last];
      var rest := Select(records[..|records| - 1], w);
      if Satisfies(last, w) then rest + [last] else rest
  }

  /** `getExpenses`: the user's rows that meet every given filter. The archive
      flag defaults to "not archived"; the string filters are exact matches;
      the search text is looked for in the name or the notes, ignoring case. */
  function GetExpenses(records: seq<Expense>, userId: string, filters: ExpenseFilters): (r: seq<Expense>)
    ensures forall x :: x in r <==>
              && x in records
              && x.userId == userId
              && (filters.isArchived.None? ==> !x.isArchived)
              && (filters.isArchived.Some? ==> x.isArchived == filters.isArchived.value)
              && (Given(filters.category) ==> x.category == filters.category.value)
              && (Given(filters.accountType) ==> x.accountType == filters.accountType.value)
              && (Given(filters.paymentType) ==> x.paymentType == filters.paymentType.value)
              && (Given(filters.search) ==> SearchMatches(x, filters.search.value))
  {
    Select(records, BuildWhere(userId, filters))
  }

  /** The first row with this id that belongs to this user (`findFirst`). */
  function IndexOfOwned(records: seq<Expense>, userId: string, id: nat): (k: Option<nat>)
    ensures k.None? <==> forall i :: 0 <= i < |records| ==> !(records[i].id == id && records[i].userId == userId)
    ensures k.Some? ==> k.value < |records| && records[k.value].id == id && records[k.value].userId == userId
  {
    if records == [] then None
    else if records[0].id == id && records[0].userId == userId then Some(0)
    else
      var k := IndexOfOwned(records[1..], userId, id);
      if k.None? then None else Some(k.value + 1)
  }

  /** `getExpenseById`: the row with this id if the user owns it, archived or
      not. */
  function GetExpenseById(records: seq<Expense>, userId: string, id: nat): (r: Option<Expense>)
    ensures r.Some? ==> r.value in records && r.value.id == id && r.value.userId == userId
    ensures r.None? <==> forall x :: x in records ==> !(x.id == id && x.userId == userId)
  {
    var k := IndexOfOwned(records, userId, id);
    if k.None? then None else Some(records[k.value])
  }

  predicate NoDuplicates(s: seq<string>) {
    forall i, j :: 0 <= i < j < |s| ==> s[i] != s[j]
  }

  /** The categories of the user's rows, in store order, repeats kept. */
  function OwnedCategories(records: seq<Expense>, userId: string): (r: seq<string>)
    ensures forall c :: c in r <==> exists x :: x in records && x.userId == userId && x.category == c
  {
    if records == [] then []
    else
      var last := records[|records| - 1];
      assert records == records[..|records| - 1] + [last];
      var rest := OwnedCategories(records[..|records| - 1], userId);
      if last.userId == userId then rest + [last.category] else rest
  }

  /** Each string of `s` once, at its first occurrence. */
  function Distinct(s: seq<string>): (r: seq<string>)
    ensures forall c :: c in r <==> c in s
    ensures NoDuplicates(r)
  {
    if s == [] then []
    else
      var rest := Distinct(s[..|s| - 1]);
      var last := s[|s| - 1];
      assert s == s[..|s| - 1] + [last];
      if last in rest then rest else rest + [last]
  }

  /** `getCategories`: every category of the user's rows, archived ones
      included, each once. */
  function GetCategories(records: seq<Expense>, userId: string): (r: seq<string>)
    ensures forall c :: c in r <==> exists x :: x in records && x.userId == userId && x.category == c
    ensures NoDuplicates(r)
  {
    Distinct(OwnedCategories(records, userId))
  }

  function Pick<T>(update: Option<T>, current: T): T {
    if update.Some? then update.value else current
  }

  /** The columns of a row after a partial update; id and owner never change. */
  function ApplyUpdate(e: Expense, data: ExpenseUpdate): (r: Expense)
    ensures r.id == e.id && r.userId == e.userId
    ensures r.name == (if data.name.Some? then data.name.value else e.name)
    ensures r.category == (if data.category.Some? then data.category.value else e.category)
    ensures r.amount == (if data.amount.Some? then data.amount.value else e.amount)
    ensures r.accountType == (if data.accountType.Some? then data.accountType.value else e.accountType)
    ensures r.paymentType == (if data.paymentType.Some? then data.paymentType.value else e.paymentType)
    ensures r.frequency == (if data.frequency.Some? then data.frequency.value else e.frequency)
    ensures r.activeMonths == (if data.activeMonths.Some? then data.activeMonths.value else e.activeMonths)
    ensures r.isArchived == (if data.isArchived.Some? then data.isArchived.value else e.isArchived)
    ensures r.notes == (if data.notes.Some? then data.notes else e.notes)
  {
    Expense(e.id, e.userId,
            Pick(data.name, e.name),
            Pick(data.category, e.category),
            Pick(data.amount, e.amount),
            Pick(data.accountType, e.accountType),
            Pick(data.paymentType, e.paymentType),
            Pick(data.frequency, e.frequency),
            Pick(data.activeMonths, e.activeMonths),
            if data.notes.Some? then data.notes else e.notes,
            Pick(data.isArchived, e.isArchived))
  }

  /** The row the soft delete leaves behind: archived, every other column as
      it was. */
  function Archived(e: Expense): Expense {
    e.(isArchived := true)
  }

  // ---------------------------------------------------------------------------
  // Lemmas

  /** `Contains` is containment at some position. */
  lemma {:induction false} ContainsAt(text: string, pattern: string)
    ensures Contains(text, pattern) <==> exists i :: OccursAt(text, pattern, i)
    decreases |text|
  {
    if StartsWith(text, pattern) {
      assert OccursAt(text, pattern, 0);
    } else if text == [] {
    } else {
      ContainsAt(text[1..], pattern);
      if exists i :: OccursAt(text, pattern, i) {
        var i :| OccursAt(text, pattern, i);
        assert i != 0;
        assert text[1..][i - 1..i - 1 + |pattern|] == text[i..i + |pattern|];
        assert OccursAt(text[1..], pattern, i - 1);
      }
      if Contains(text[1..], pattern) {
        var i :| OccursAt(text[1..], pattern, i);
        assert text[1..][i..i + |pattern|] == text[i + 1..i + 1 + |pattern|];
        assert OccursAt(text, pattern, i + 1);
      }
    }
  }

  lemma {:induction false} FoldIdempotent(s: string)
    ensures Fold(Fold(s)) == Fold(s)
  {
    if s != [] {
      FoldIdempotent(s[1..]);
      assert Fold(s)[1..] == Fold(s[1..]);
    }
  }

  /** Searching for a text or for its lower-case form selects the same rows:
      the search ignores case. */
  lemma SearchIgnoresCase(records: seq<Expense>, userId: string, filters: ExpenseFilters, s: string)
    requires s != ""
    ensures GetExpenses(records, userId, filters.(search := Some(s)))
            == GetExpenses(records, userId, filters.(search := Some(Fold(s))))
  {
    FoldIdempotent(s);
    assert BuildWhere(userId, filters.(search := Some(Fold(s)))).search == Some(Fold(s));
    SelectFolded(records, BuildWhere(userId, filters.(search := Some(s))), s);
  }

  lemma {:induction false} SelectFolded(records: seq<Expense>, w: Where, s: string)
    requires w.search == Some(s) && Fold(Fold(s)) == Fold(s)
    ensures Select(records, w) == Select(records, w.(search := Some(Fold(s))))
  {
    if records != [] {
      SelectFolded(records[..|records| - 1], w, s);
    }
  }

  /** An update with no fields leaves the row as it was. */
  lemma EmptyUpdateKeepsRow(e: Expense)
    ensures ApplyUpdate(e, ExpenseUpdate(None, None, None, None, None, None, None, None, None)) == e
  {
  }

  /** The soft delete is the update that sets `isArchived` and nothing else. */
  lemma ArchiveIsArchivedOnlyUpdate(e: Expense)
    ensures Archived(e) == ApplyUpdate(e, ExpenseUpdate(None, None, None, None, None, None, None, None, Some(true)))
    ensures Archived(Archived(e)) == Archived(e)
  {
  }

  /** Applying the same update twice is applying it once. */
  lemma UpdateIdempotent(e: Expense, data: ExpenseUpdate)
    ensures ApplyUpdate(ApplyUpdate(e, data), data) == ApplyUpdate(e, data)
  {
  }

  /** Without an archive filter the list hides archived rows; asking for
      archived rows shows exactly those. With no other filter, every row of
      the user is in one of the two lists. */
  lemma ArchiveFilterPartitions(records: seq<Expense>, userId: string, x: Expense)
    requires x in records && x.userId == userId
    ensures var none := ExpenseFilters(None, None, None, None, None);
            var archived := ExpenseFilters(None, None, None, Some(true), None);
            && (x in GetExpenses(records, userId, none) <==> !x.isArchived)
            && (x in GetExpenses(records, userId, archived) <==> x.isArchived)
  {
  }

  /** Archiving changes neither owner nor category, so the list of
      categories is the same before and after. */
  lemma {:induction false} ArchivingKeepsCategories(records: seq<Expense>, userId: string, k: nat)
    requires k < |records|
    ensures GetCategories(records[k := Archived(records[k])], userId) == GetCategories(records, userId)
  {
    SameColumnsSameCategories(records, records[k := Archived(records[k])], userId);
  }

  lemma {:induction false} SameColumnsSameCategories(a: seq<Expense>, b: seq<Expense>, userId: string)
    requires |a| == |b|
    requires forall i :: 0 <= i < |a| ==> a[i].userId == b[i].userId && a[i].category == b[i].category
    ensures OwnedCategories(a, userId) == OwnedCategories(b, userId)
  {
    if a != [] {
      var n := |a| - 1;
      SameColumnsSameCategories(a[..n], b[..n], userId);
    }
  }

  // ---------------------------------------------------------------------------
  // The store

  predicate IdsBelow(records: seq<Expense>, bound: nat) {
    forall i :: 0 <= i < |records| ==> records[i].id < bound
  }

  predicate IdsDistinct(records: seq<Expense>) {
    forall i, j :: 0 <= i < j < |records| ==> records[i].id != records[j].id
  }

  class ExpenseStore {
    var records: seq<Expense>
    var nextId: nat

    /** Every row has an id below the counter, and ids are distinct. */
    ghost predicate Valid()
      reads this
    {
      IdsBelow(records, nextId) && IdsDistinct(records)
    }

    constructor()
      ensures Valid() && records == []
    {
      records := [];
      nextId := 0;
    }

    /** `createExpense`: stores exactly the input columns with the user's id,
        under a fresh id and not archived (the column's default). */
    method CreateExpense(userId: string, data: ExpenseInput) returns (expense: Expense)
      requires Valid()
      modifies this
      ensures Valid()
      ensures expense == Expense(old(nextId), userId, data.name, data.category, data.amount, data.accountType,
                                 data.paymentType, data.frequency, data.activeMonths, data.notes, false)
      ensures forall x :: x in old(records) ==> x.id != expense.id
      ensures records == old(records) + [expense] && nextId == old(nextId) + 1
    {
      expense := Expense(nextId, userId, data.name, data.category, data.amount, data.accountType,
                         data.paymentType, data.frequency, data.activeMonths, data.notes, false);
      records := records + [expense];
      nextId := nextId + 1;
    }

    /** `updateExpense`: `None` and no change unless the user owns a row with
        that id; otherwise that row updated in place. */
    method UpdateExpense(userId: string, id: nat, data: ExpenseUpdate) returns (r: Option<Expense>)
      requires Valid()
      modifies this
      ensures Valid() && nextId == old(nextId)
      ensures IndexOfOwned(old(records), userId, id).None? ==> r.None? && records == old(records)
      ensures var k := IndexOfOwned(old(records), userId, id);
              k.Some? ==> r == Some(ApplyUpdate(old(records)[k.value], data))
                          && records == old(records)[k.value := r.value]
    {
      var k := IndexOfOwned(records, userId, id);
      if k.None? {
        return None;
      }
      var updated := ApplyUpdate(records[k.value], data);
      records := records[k.value := updated];
      r := Some(updated);
    }

    /** `deleteExpense`: `None` and no change unless the user owns a row with
        that id; otherwise the row stays in the store, archived, with every
        other column unchanged, and is returned as archived. */
    method DeleteExpense(userId: string, id: nat) returns (r: Option<Expense>)
      requires Valid()
      modifies this
      ensures Valid() && nextId == old(nextId)
      ensures IndexOfOwned(old(records), userId, id).None? ==> r.None? && records == old(records)
      ensures var k := IndexOfOwned(old(records), userId, id);
              k.Some? ==> r == Some(Archived(old(records)[k.value]))
                          && records == old(records)[k.value := r.value]
      ensures |records| == |old(records)|
    {
      var k := IndexOfOwned(records, userId, id);
      if k.None? {
        return None;
      }
      var archived := Archived(records[k.value]);
      records := records[k.value := archived];
      r := Some(archived);
    }
  }
}
