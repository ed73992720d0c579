/** The settings controller (`settings.controller.ts`): the validation schema
    of a settings update, with its cross-field rule on the split ratios, and
    the handlers that map what the service does to a status.

    The schema is the library `zod` (version 3): a check on a number or a
    string that fails records an issue and parsing goes on; a value outside an
    enumeration records an issue and aborts the object, so the cross-field
    rule (a `refine`) is then not run. An issue is reported by the path of the
    field it concerns. */
module SettingsController {
  import opened Records
  import opened Http
  import SettingsService

  // ---------------------------------------------------------------------------
  // The e-mail check of the schema library:
  // ^(?!\.)(?!.*\.\.)([A-Z0-9_'+\-\.]*)[A-Z0-9_+-]@([A-Z0-9][A-Z0-9\-]*\.)+[A-Z]{2,}$
  // matched without regard to case.

  predicate IsLetter(c: char) {
    'a' <= c <= 'z' || 'A' <= c <= 'Z'
  }

  predicate IsLetterOrDigit(c: char) {
    IsLetter(c) || '0' <= c <= '9'
  }

  /** A character of the part before the `@`. */
  predicate IsLocalChar(c: char) {
    IsLetterOrDigit(c) || c == '_' || c == '\'' || c == '+' || c == '-' || c == '.'
  }

  /** The last character before the `@`, which may not be a dot or a quote. */
  predicate IsLocalLast(c: char) {
    IsLetterOrDigit(c) || c == '_' || c == '+' || c == '-'
  }

  /** A domain label: a letter or digit, then letters, digits and hyphens. */
  predicate IsLabel(s: string) {
    |s| >= 1 && IsLetterOrDigit(s[0]) && forall i :: 0 <= i < |s| ==> IsLetterOrDigit(s[i]) || s[i] == '-'
  }

  /** The last label: two or more letters. */
  predicate IsTopLevel(s: string) {
    |s| >= 2 && forall i :: 0 <= i < |s| ==> IsLetter(s[i])
  }

  /** One or more labels each followed by a dot, then the last label. */
  predicate IsDomain(d: string)
    decreases |d|
  {
    exists k :: 0 <= k < |d| && d[k] == '.' && IsLabel(d[..k]) && (IsTopLevel(d[k + 1..]) || IsDomain(d[k + 1..]))
  }

  predicate HasDoubleDot(s: string) {
    exists i :: 0 <= i < |s| - 1 && s[i] == '.' && s[i + 1] == '.'
  }

  predicate IsEmail(s: string) {
    && !(|s| > 0 && s[0] == '.')
    && !HasDoubleDot(s)
    && exists at :: && 0 < at < |s| && s[at] == '@'
                     && (forall i :: 0 <= i < at ==> IsLocalChar(s[i]))
                     && IsLocalLast(s[at - 1])
                     && IsDomain(s[at + 1..])
  }

  predicate IsAssignment(s: string) {
    s == "person1" || s == "person2" || s == "shared"
  }

  // ---------------------------------------------------------------------------
  // The schema

  /** Every condition the schema puts on an update, the cross-field rule
      included; absent fields are not checked. */
  predicate ValidSettingsUpdate(u: SettingsUpdate) {
    && (u.splitRatioPerson1.Some? ==> 0.0 <= u.splitRatioPerson1.value <= 100.0)
    && (u.splitRatioPerson2.Some? ==> 0.0 <= u.splitRatioPerson2.value <= 100.0)
    && (u.person1Name.Some? ==> |u.person1Name.value| >= 1)
    && (u.person2Name.Some? ==> |u.person2Name.value| >= 1)
    && (u.authorizedEmails.Some? ==> forall e :: e in u.authorizedEmails.value ==> IsEmail(e))
    && (u.travelSavings.Some? ==> u.travelSavings.value >= 0.0)
    && (u.homeSavings.Some? ==> u.homeSavings.value >= 0.0)
    && (u.generalSavings.Some? ==> u.generalSavings.value >= 0.0)
    && (u.travelSavingsAssignedTo.Some? ==> IsAssignment(u.travelSavingsAssignedTo.value))
    && (u.homeSavingsAssignedTo.Some? ==> IsAssignment(u.homeSavingsAssignedTo.value))
    && (u.generalSavingsAssignedTo.Some? ==> IsAssignment(u.generalSavingsAssignedTo.value))
    && (u.splitRatioPerson1.Some? && u.splitRatioPerson2.Some? ==>
          u.splitRatioPerson1.value + u.splitRatioPerson2.value == 100.0)
  }

  function RatioIssues(r: Option<real>, path: string): seq<string> {
    if r.Some? && !(0.0 <= r.value <= 100.0) then [path] else []
  }

  function NameIssues(n: Option<string>, path: string): seq<string> {
    if n.Some? && |n.value| < 1 then [path] else []
  }

  function SavingsIssues(v: Option<real>, path: string): seq<string> {
    if v.Some? && v.value < 0.0 then [path] else []
  }

  function AssignmentIssues(a: Option<string>, path: string): seq<string> {
    if a.Some? && !IsAssignment(a.value) then [path] else []
  }

  /** One issue for each address that is not an e-mail. */
  function BadEmails(es: seq<string>): (r: seq<string>)
    ensures r == [] <==> forall e :: e in es ==> IsEmail(e)
  {
    if es == [] then []
    else
      assert es[0] in es;
      assert forall e :: e in es[1..] ==> e in es;
      (if IsEmail(es[0]) then [] else ["authorizedEmails"]) + BadEmails(es[1..])
  }

  function EmailIssues(es: Option<seq<string>>): seq<string> {
    if es.Some? then BadEmails(es.value) else []
  }

  /** A value outside an enumeration, which stops the parse before the
      cross-field rule. */
  predicate Aborts(u: SettingsUpdate) {
    || (u.travelSavingsAssignedTo.Some? && !IsAssignment(u.travelSavingsAssignedTo.value))
    || (u.homeSavingsAssignedTo.Some? && !IsAssignment(u.homeSavingsAssignedTo.value))
    || (u.generalSavingsAssignedTo.Some? && !IsAssignment(u.generalSavingsAssignedTo.value))
  }

  /** The issues of the fields, in the schema's order. */
  function FieldIssues(u: SettingsUpdate): seq<string> {
    RatioIssues(u.splitRatioPerson1, "splitRatioPerson1")
    + RatioIssues(u.splitRatioPerson2, "splitRatioPerson2")
    + NameIssues(u.person1Name, "person1Name")
    + NameIssues(u.person2Name, "person2Name")
    + EmailIssues(u.authorizedEmails)
    + SavingsIssues(u.travelSavings, "travelSavings")
    + SavingsIssues(u.homeSavings, "homeSavings")
    + SavingsIssues(u.generalSavings, "generalSavings")
    + AssignmentIssues(u.travelSavingsAssignedTo, "travelSavingsAssignedTo")
    + AssignmentIssues(u.homeSavingsAssignedTo, "homeSavingsAssignedTo")
    + AssignmentIssues(u.generalSavingsAssignedTo, "generalSavingsAssignedTo")
  }

  /** The cross-field rule: two ratios must sum to 100, reported on the first
      ratio. */
  function RefineIssues(u: SettingsUpdate): seq<string> {
    if u.splitRatioPerson1.Some? && u.splitRatioPerson2.Some?
       && u.splitRatioPerson1.value + u.splitRatioPerson2.value != 100.0
    then ["splitRatioPerson1"]
    else []
  }

  /** The issues `updateSettingsSchema.parse` reports; the update is accepted
      exactly when there are none, that is when it meets every condition of
      the schema. */
  function SettingsIssues(u: SettingsUpdate): (r: seq<string>)
    ensures r == [] <==> ValidSettingsUpdate(u)
  {
    FieldIssues(u) + (if Aborts(u) then [] else RefineIssues(u))
  }

  // ---------------------------------------------------------------------------
  // Lemmas about the schema

  /** An update the schema accepts passes the service's own ratio check, so
      the service's refusal is never reached from this handler. */
  lemma AcceptedUpdatePassesService(u: SettingsUpdate)
    requires SettingsIssues(u) == []
    ensures !SettingsService.RatiosRejected(u)
  {
  }

  /** Ratios within range that do not sum to 100 give exactly one issue, on
      the first ratio, when nothing else is wrong. */
  lemma RatioSumReportedOnFirstRatio(a: real, b: real)
    requires 0.0 <= a <= 100.0 && 0.0 <= b <= 100.0 && a + b != 100.0
    ensures SettingsIssues(SettingsService.NoChange.(splitRatioPerson1 := Some(a), splitRatioPerson2 := Some(b)))
            == ["splitRatioPerson1"]
  {
    var u := SettingsService.NoChange.(splitRatioPerson1 := Some(a), splitRatioPerson2 := Some(b));
    assert FieldIssues(u) == [];
  }

  /** A value outside the assignment enumeration aborts the parse, so a bad
      ratio sum in the same update is not reported. */
  lemma AbortHidesRatioSum()
    ensures SettingsIssues(SettingsService.NoChange.(splitRatioPerson1 := Some(50.0),
                                                     splitRatioPerson2 := Some(40.0),
                                                     travelSavingsAssignedTo := Some("nobody")))
            == ["travelSavingsAssignedTo"]
  {
    var u := SettingsService.NoChange.(splitRatioPerson1 := Some(50.0), splitRatioPerson2 := Some(40.0),
                                       travelSavingsAssignedTo := Some("nobody"));
    assert FieldIssues(u) == ["travelSavingsAssignedTo"];
  }

  /** Balances are not checked: a negative balance is accepted. */
  lemma NegativeBalanceAccepted(b: real)
    ensures SettingsIssues(SettingsService.NoChange.(checkingBalance := Some(b))) == []
  {
    var u := SettingsService.NoChange.(checkingBalance := Some(b));
    assert FieldIssues(u) == [];
  }

  /** An address with a dotted domain is accepted. */
  lemma EmailAccepted()
    ensures IsEmail("a@b.co")
  {
    var s := "a@b.co";
    var d := s[2..];
    assert d == "b.co";
    assert IsLabel(d[..1]) && IsTopLevel(d[2..]) by {
      assert d[..1] == "b" && d[2..] == "co";
    }
    assert IsDomain(d);
    assert IsLocalChar(s[0]) && IsLocalLast(s[0]);
    assert s[1] == '@' && s[1 + 1..] == d;
    assert !HasDoubleDot(s);
  }

  /** A domain without a dot is refused. */
  lemma EmailWithoutDotRefused()
    ensures !IsEmail("a@b")
  {
    var t := "a@b";
    assert t[2..] == "b";
    assert !IsDomain("b");
  }

  // ---------------------------------------------------------------------------
  // Handlers

  /** The status of `PUT /api/settings`: a validation error and the service's
      ratio message are the caller's fault (400), anything else the
      server's (500). */
  function UpdateStatus(failure: Option<Failure>): (status: int)
    ensures failure.None? <==> status == OK
    ensures status == BadRequest <==>
              failure.Some? && (failure.value.ValidationError?
                                || failure.value.message == SettingsService.RatioSumMessage)
    ensures status in {OK, BadRequest, ServerError}
  {
    if failure.None? then OK
    else match failure.value
      case ValidationError(_) => BadRequest
      case Thrown(m) => if m == SettingsService.RatioSumMessage then BadRequest else ServerError
  }

  /** What the handler catches from a service call. */
  function FailureOf<T>(r: Result<T>): (f: Option<Failure>)
    ensures f.None? <==> r.Ok?
  {
    match r
    case Ok(_) => None
    case Err(m) => Some(Thrown(m))
  }

  function ValueOf<T>(r: Result<T>): (v: Option<T>)
    ensures r.Ok? ==> v == Some(r.value)
    ensures r.Err? ==> v.None?
  {
    match r
    case Ok(x) => Some(x)
    case Err(_) => None
  }

  /** `getSettings`: always the user's row, created with defaults if
      missing. */
  method GetSettings(store: SettingsService.SettingsStore, userId: string) returns (status: int, settings: Settings)
    requires store.Valid()
    modifies store
    ensures store.Valid()
    ensures status == OK
    ensures settings == SettingsService.Stored(old(store.byUser), store.users, store.columns, userId)
    ensures store.byUser == old(store.byUser)[userId := settings]
  {
    settings := store.GetSettings(userId);
    status := OK;
  }

  /** `updateSettings`: an update the schema refuses answers 400 and leaves
      the store alone; an accepted one always reaches the store and answers
      200 with the merged row. */
  method UpdateSettings(store: SettingsService.SettingsStore, userId: string, body: SettingsUpdate)
    returns (status: int, settings: Option<Settings>)
    requires store.Valid()
    modifies store
    ensures store.Valid()
    ensures !ValidSettingsUpdate(body) ==> status == BadRequest && settings.None? && store.byUser == old(store.byUser)
    ensures ValidSettingsUpdate(body) ==>
              && status == OK
              && settings == Some(SettingsService.Merge(
                                    SettingsService.Stored(old(store.byUser), store.users, store.columns, userId), body))
              && store.byUser == old(store.byUser)[userId := settings.value]
  {
    var issues := SettingsIssues(body);
    if issues != [] {
      status := UpdateStatus(Some(ValidationError(issues)));
      settings := None;
      return;
    }
    AcceptedUpdatePassesService(body);
    var r := store.UpdateSettings(userId, body);
    status := UpdateStatus(FailureOf(r));
    settings := ValueOf(r);
  }
}
