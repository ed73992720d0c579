/** The settings service (`settings.service.ts`): one settings row per user,
    created with defaults the first time it is read, and a partial update that
    refuses a pair of split ratios not summing to 100.

    The store is the class `SettingsStore`: a map from user id to that user's
    row, the users' e-mail addresses (read, never written, by this service),
    and the defaults of the columns that `getSettings` does not set itself
    (the store's column defaults: balances, savings, assignments and the
    auto-ratio flag). */
module SettingsService {
  import opened Records

  const RatioSumMessage: string := "Split ratios must sum to 100"

  /** The update that changes nothing. */
  const NoChange: SettingsUpdate :=
    SettingsUpdate(None, None, None, None, None, None, None, None, None, None, None, None, None, None, None, None)

  /** `user?.email ? [user.email] : []`: the user's address when the user is
      known and has a non-empty one. */
  function InitialEmails(users: map<string, string>, userId: string): (r: seq<string>)
    ensures |r| <= 1
    ensures r == [] <==> userId !in users || users[userId] == ""
    ensures r != [] ==> r[0] == users[userId]
  {
    if userId in users && users[userId] != "" then [users[userId]] else []
  }

  /** The row `getSettings` creates for a user who has none: a 60/40 split,
      the two placeholder names and the user's own address. */
  function DefaultSettings(userId: string, users: map<string, string>, columns: Settings): (s: Settings)
    ensures s.userId == userId
    ensures s.splitRatioPerson1 + s.splitRatioPerson2 == 100.0
    ensures s.splitRatioPerson1 > s.splitRatioPerson2
    ensures s.person1Name != s.person2Name
    ensures s.authorizedEmails == InitialEmails(users, userId)
  {
    columns.(userId := userId,
             splitRatioPerson1 := 60.0,
             splitRatioPerson2 := 40.0,
             person1Name := "Person 1",
             person2Name := "Person 2",
             authorizedEmails := InitialEmails(users, userId))
  }

  /** The row `getSettings` returns: the stored one, or else the defaults. */
  function Stored(byUser: map<string, Settings>, users: map<string, string>, columns: Settings, userId: string)
    : (s: Settings)
    requires forall u :: u in byUser ==> byUser[u].userId == u
    ensures s.userId == userId
    ensures userId in byUser ==> s == byUser[userId]
  {
    if userId in byUser then byUser[userId] else DefaultSettings(userId, users, columns)
  }

  /** The service's own check: both ratios given and not summing to 100. A
      single ratio is never checked. */
  predicate RatiosRejected(data: SettingsUpdate) {
    data.splitRatioPerson1.Some? && data.splitRatioPerson2.Some?
    && data.splitRatioPerson1.value + data.splitRatioPerson2.value != 100.0
  }

  function Pick<T>(update: Option<T>, current: T): T {
    if update.Some? then update.value else current
  }

  /** A row after a partial update: each given field replaces the column,
      each absent one leaves it. */
  function Merge(s: Settings, u: SettingsUpdate): (r: Settings)
    ensures r.userId == s.userId
    ensures r.splitRatioPerson1 == (if u.splitRatioPerson1.Some? then u.splitRatioPerson1.value else s.splitRatioPerson1)
    ensures r.splitRatioPerson2 == (if u.splitRatioPerson2.Some? then u.splitRatioPerson2.value else s.splitRatioPerson2)
    ensures r.autoCalculateSplitRatio == (if u.autoCalculateSplitRatio.Some? then u.autoCalculateSplitRatio.value else s.autoCalculateSplitRatio)
    ensures r.person1Name == (if u.person1Name.Some? then u.person1Name.value else s.person1Name)
    ensures r.person2Name == (if u.person2Name.Some? then u.person2Name.value else s.person2Name)
    ensures r.authorizedEmails == (if u.authorizedEmails.Some? then u.authorizedEmails.value else s.authorizedEmails)
    ensures r.checkingBalance == (if u.checkingBalance.Some? then u.checkingBalance.value else s.checkingBalance)
    ensures r.creditCardBalance == (if u.creditCardBalance.Some? then u.creditCardBalance.value else s.creditCardBalance)
    ensures r.lineOfCreditBalance == (if u.lineOfCreditBalance.Some? then u.lineOfCreditBalance.value else s.lineOfCreditBalance)
    ensures r.studentLineOfCreditBalance == (if u.studentLineOfCreditBalance.Some? then u.studentLineOfCreditBalance.value else s.studentLineOfCreditBalance)
    ensures r.travelSavings == (if u.travelSavings.Some? then u.travelSavings.value else s.travelSavings)
    ensures r.homeSavings == (if u.homeSavings.Some? then u.homeSavings.value else s.homeSavings)
    ensures r.generalSavings == (if u.generalSavings.Some? then u.generalSavings.value else s.generalSavings)
    ensures r.travelSavingsAssignedTo == (if u.travelSavingsAssignedTo.Some? then u.travelSavingsAssignedTo.value else s.travelSavingsAssignedTo)
    ensures r.homeSavingsAssignedTo == (if u.homeSavingsAssignedTo.Some? then u.homeSavingsAssignedTo.value else s.homeSavingsAssignedTo)
    ensures r.generalSavingsAssignedTo == (if u.generalSavingsAssignedTo.Some? then u.generalSavingsAssignedTo.value else s.generalSavingsAssignedTo)
  {
    Settings(s.userId,
             Pick(u.splitRatioPerson1, s.splitRatioPerson1),
             Pick(u.splitRatioPerson2, s.splitRatioPerson2),
             Pick(u.autoCalculateSplitRatio, s.autoCalculateSplitRatio),
             Pick(u.person1Name, s.person1Name),
             Pick(u.person2Name, s.person2Name),
             Pick(u.authorizedEmails, s.authorizedEmails),
             Pick(u.checkingBalance, s.checkingBalance),
             Pick(u.creditCardBalance, s.creditCardBalance),
             Pick(u.lineOfCreditBalance, s.lineOfCreditBalance),
             Pick(u.studentLineOfCreditBalance, s.studentLineOfCreditBalance),
             Pick(u.travelSavings, s.travelSavings),
             Pick(u.homeSavings, s.homeSavings),
             Pick(u.generalSavings, s.generalSavings),
             Pick(u.travelSavingsAssignedTo, s.travelSavingsAssignedTo),
             Pick(u.homeSavingsAssignedTo, s.homeSavingsAssignedTo),
             Pick(u.generalSavingsAssignedTo, s.generalSavingsAssignedTo))
  }

  // ---------------------------------------------------------------------------
  // Lemmas

  /** Reading the settings a second time finds the row the first read
      created: the defaults are created once. */
  lemma StoredAfterRead(byUser: map<string, Settings>, users: map<string, string>, columns: Settings,
                        userId: string, other: string)
    requires forall u :: u in byUser ==> byUser[u].userId == u
    ensures var after := byUser[userId := Stored(byUser, users, columns, userId)];
            && (forall u :: u in after ==> after[u].userId == u)
            && Stored(after, users, columns, userId) == Stored(byUser, users, columns, userId)
            && Stored(after, users, columns, other) == Stored(byUser, users, columns, other)
  {
  }

  /** An update with no field leaves the row as it was. */
  lemma MergeNothing(s: Settings)
    ensures Merge(s, NoChange) == s
  {
  }

  /** Fields absent from an update keep their values. */
  lemma MergeKeepsAbsent(s: Settings, u: SettingsUpdate)
    ensures u.splitRatioPerson1.None? ==> Merge(s, u).splitRatioPerson1 == s.splitRatioPerson1
    ensures u.splitRatioPerson2.None? ==> Merge(s, u).splitRatioPerson2 == s.splitRatioPerson2
    ensures u.person1Name.None? ==> Merge(s, u).person1Name == s.person1Name
    ensures u.person2Name.None? ==> Merge(s, u).person2Name == s.person2Name
    ensures u.authorizedEmails.None? ==> Merge(s, u).authorizedEmails == s.authorizedEmails
    ensures u.checkingBalance.None? ==> Merge(s, u).checkingBalance == s.checkingBalance
    ensures u.creditCardBalance.None? ==> Merge(s, u).creditCardBalance == s.creditCardBalance
    ensures u.lineOfCreditBalance.None? ==> Merge(s, u).lineOfCreditBalance == s.lineOfCreditBalance
    ensures u.studentLineOfCreditBalance.None? ==>
              Merge(s, u).studentLineOfCreditBalance == s.studentLineOfCreditBalance
    ensures u.autoCalculateSplitRatio.None? ==> Merge(s, u).autoCalculateSplitRatio == s.autoCalculateSplitRatio
    ensures u.travelSavings.None? ==> Merge(s, u).travelSavings == s.travelSavings
    ensures u.homeSavings.None? ==> Merge(s, u).homeSavings == s.homeSavings
    ensures u.generalSavings.None? ==> Merge(s, u).generalSavings == s.generalSavings
    ensures u.travelSavingsAssignedTo.None? ==> Merge(s, u).travelSavingsAssignedTo == s.travelSavingsAssignedTo
    ensures u.homeSavingsAssignedTo.None? ==> Merge(s, u).homeSavingsAssignedTo == s.homeSavingsAssignedTo
    ensures u.generalSavingsAssignedTo.None? ==> Merge(s, u).generalSavingsAssignedTo == s.generalSavingsAssignedTo
  {
  }

  /** Applying the same update twice is applying it once. */
  lemma MergeIdempotent(s: Settings, u: SettingsUpdate)
    ensures Merge(Merge(s, u), u) == Merge(s, u)
  {
  }

  /** When an accepted update gives both ratios, the row's ratios sum to 100. */
  lemma AcceptedPairSumsTo100(s: Settings, u: SettingsUpdate)
    requires u.splitRatioPerson1.Some? && u.splitRatioPerson2.Some? && !RatiosRejected(u)
    ensures Merge(s, u).splitRatioPerson1 + Merge(s, u).splitRatioPerson2 == 100.0
  {
  }

  /** The check does not look at a single ratio, so an accepted update can
      leave a row whose ratios no longer sum to 100: 60/40 with person 1 set
      to 70 becomes 70/40. */
  lemma SingleRatioUpdateCanBreakSum(userId: string, users: map<string, string>, columns: Settings)
    ensures var u := NoChange.(splitRatioPerson1 := Some(70.0));
            var after := Merge(DefaultSettings(userId, users, columns), u);
            && !RatiosRejected(u)
            && after.splitRatioPerson1 + after.splitRatioPerson2 == 110.0
  {
  }

  // ---------------------------------------------------------------------------
  // The store

  class SettingsStore {
    var byUser: map<string, Settings>
    const users: map<string, string>
    const columns: Settings

    /** Every row is filed under its own user. */
    ghost predicate Valid()
      reads this
    {
      forall u :: u in byUser ==> byUser[u].userId == u
    }

    constructor(users: map<string, string>, columns: Settings)
      ensures Valid() && byUser == map[] && this.users == users && this.columns == columns
    {
      byUser := map[];
      this.users := users;
      this.columns := columns;
    }

    /** `getSettings`: the user's row; for a user without one, the defaults
        are created, stored and returned. Nobody else's row changes. */
    method GetSettings(userId: string) returns (s: Settings)
      requires Valid()
      modifies this
      ensures Valid()
      ensures s == Stored(old(byUser), users, columns, userId)
      ensures byUser == old(byUser)[userId := s]
      ensures userId in old(byUser) ==> byUser == old(byUser)
    {
      if userId in byUser {
        s := byUser[userId];
      } else {
        s := DefaultSettings(userId, users, columns);
        byUser := byUser[userId := s];
      }
    }

    /** `updateSettings`: a pair of ratios not summing to 100 is refused with
        the service's message before the store is touched; otherwise the row
        is read (and created with defaults if missing), the update merged in
        and the result stored and returned. */
    method UpdateSettings(userId: string, data: SettingsUpdate) returns (r: Result<Settings>)
      requires Valid()
      modifies this
      ensures Valid()
      ensures RatiosRejected(data) ==> r == Err(RatioSumMessage) && byUser == old(byUser)
      ensures !RatiosRejected(data) ==>
                && r == Ok(Merge(Stored(old(byUser), users, columns, userId), data))
                && byUser == old(byUser)[userId := r.value]
    {
      if data.splitRatioPerson1.Some? && data.splitRatioPerson2.Some? {
        var total := data.splitRatioPerson1.value + data.splitRatioPerson2.value;
        if total != 100.0 {
          return Err(RatioSumMessage);
        }
      }
      var existing := GetSettings(userId);
      var settings := Merge(existing, data);
      byUser := byUser[userId := settings];
      r := Ok(settings);
    }
  }
}
