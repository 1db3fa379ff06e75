/**
 * The users and creators page: the creator join used when the embedded join is not
 * available, the search with its user-type and creator-status filters, the counters,
 * and the staff's change of a creator application's status.
 */
module Users {
  import opened Wrappers
  import opened Text
  import opened Seqs
  import opened Schema

  /** A user as the page holds it: the row and its `creator` profile (null for a regular user). */
  datatype UserView = UserView(row: UserRow, creator: Option<Creator>)

  // ---------------------------------------------------------------- manual creator join

  /** `usersOnly.map(u => u.id).filter(Boolean)`. */
  function TruthyIds(us: seq<UserRow>): (r: seq<string>)
    ensures forall k :: k in r <==> exists i :: 0 <= i < |us| && us[i].id == Some(k) && k != ""
    ensures |r| > 0 <==> exists i :: 0 <= i < |us| && Truthy(us[i].id)
    decreases |us|
  {
    if us == [] then []
    else (if Truthy(us[0].id) then [us[0].id.value] else []) + TruthyIds(us[1..])
  }

  function CreatorKey(c: Creator): string
  {
    c.userId
  }

  /** `creatorMap[user.id] || null`, where a later creators row for the same user overwrites an earlier one. */
  function CreatorFor(creatorsData: seq<Creator>, id: Option<string>): Option<Creator>
  {
    if id.Some? then LastWithKey(creatorsData, CreatorKey, id.value) else None
  }

  /** The creator found is the last creators row for that user, and none is found exactly when no row is for that user. */
  lemma CreatorForSpec(creatorsData: seq<Creator>, userId: string)
    ensures CreatorFor(creatorsData, Some(userId)).None? <==>
              forall i :: 0 <= i < |creatorsData| ==> creatorsData[i].userId != userId
    ensures CreatorFor(creatorsData, Some(userId)).Some? ==>
              exists j :: 0 <= j < |creatorsData| && creatorsData[j] == CreatorFor(creatorsData, Some(userId)).value
                          && creatorsData[j].userId == userId
                          && forall i :: j < i < |creatorsData| ==> creatorsData[i].userId != userId
  {
    LastWithKeyIsLast(creatorsData, CreatorKey, userId);
  }

  /** Whether the fallback attaches creators: some user id to ask for, and the creators query succeeded. */
  predicate CreatorsJoined(usersOnly: seq<UserRow>, creatorsData: Option<seq<Creator>>)
  {
    |TruthyIds(usersOnly)| > 0 && creatorsData.Some?
  }

  /**
   * The third tier of `loadUsers`: a failed users query shows nobody; otherwise every
   * user, in order, with the creator profile the creators rows give for its id, or with
   * none at all when there was no id to ask for or the creators query failed.
   */
  method JoinCreators(usersOnly: Option<seq<UserRow>>, creatorsData: Option<seq<Creator>>)
    returns (users: seq<UserView>)
    ensures |users| == |Rows(usersOnly)|
    ensures forall i :: 0 <= i < |users| ==> users[i].row == Rows(usersOnly)[i]
    ensures forall i :: 0 <= i < |users| ==>
              users[i].creator == if CreatorsJoined(Rows(usersOnly), creatorsData)
                                  then CreatorFor(creatorsData.value, Rows(usersOnly)[i].id) else None
  {
    if usersOnly.None? {
      return [];
    }
    var rows := usersOnly.value;
    var userIds := TruthyIds(rows);
    if |userIds| > 0 && creatorsData.Some? {
      var creatorMap := BuildIndex(creatorsData.value, CreatorKey);
      users := seq(|rows|, i requires 0 <= i < |rows| => UserView(rows[i], Lookup(creatorMap, rows[i].id)));
      return;
    }
    users := seq(|rows|, i requires 0 <= i < |rows| => UserView(rows[i], None));
  }

  // ---------------------------------------------------------------- embedded creator join

  /** A row of an embedded users query: the user's columns and its embedded `creators` profile, null when it has none. */
  datatype EmbeddedUser = EmbeddedUser(row: UserRow, creators: Option<Creator>)

  /** The first two tiers' mapping: every user, in order, with `creator: user.creators || null`. */
  function EmbeddedUsers(data: seq<EmbeddedUser>): (users: seq<UserView>)
    ensures |users| == |data|
    ensures forall i :: 0 <= i < |users| ==> users[i].row == data[i].row && users[i].creator == data[i].creators
  {
    seq(|data|, i requires 0 <= i < |data| => UserView(data[i].row, data[i].creators))
  }

  /**
   * `loadUsers`: the embedded query through the named foreign key, then the plain embedded
   * query, then the manual join. The first embedded query that returns rows decides the
   * list; when both fail, the manual join does.
   */
  method LoadUsers(embedded: Option<seq<EmbeddedUser>>, retried: Option<seq<EmbeddedUser>>,
                   usersOnly: Option<seq<UserRow>>, creatorsData: Option<seq<Creator>>)
    returns (users: seq<UserView>)
    ensures embedded.Some? ==> users == EmbeddedUsers(embedded.value)
    ensures embedded.None? && retried.Some? ==> users == EmbeddedUsers(retried.value)
    ensures embedded.None? && retried.None? ==>
              |users| == |Rows(usersOnly)|
              && forall i :: 0 <= i < |users| ==>
                   users[i].row == Rows(usersOnly)[i]
                   && users[i].creator == if CreatorsJoined(Rows(usersOnly), creatorsData)
                                          then CreatorFor(creatorsData.value, Rows(usersOnly)[i].id) else None
  {
    var data := embedded;
    if data.None? {
      data := retried;
    }
    if data.None? {
      users := JoinCreators(usersOnly, creatorsData);
    } else {
      users := EmbeddedUsers(data.value);
    }
  }

  // ---------------------------------------------------------------- filtering

  /** The search box: name, username, email, phone, or the creator's legal name or IC number. */
  predicate MatchesUserSearch(u: UserView, term: string)
  {
    FieldMatches(u.row.name, term) || FieldMatches(u.row.username, term)
    || FieldMatches(u.row.email, term) || FieldMatches(u.row.phoneNumber, term)
    || (u.creator.Some? && (FieldMatches(u.creator.value.fullName, term) || FieldMatches(u.creator.value.icNumber, term)))
  }

  /** The nullable text fields the search looks at, in the order it tries them. */
  function SearchFields(u: UserView): seq<Option<string>>
  {
    [u.row.name, u.row.username, u.row.email, u.row.phoneNumber,
     if u.creator.Some? then u.creator.value.fullName else None,
     if u.creator.Some? then u.creator.value.icNumber else None]
  }

  /** A user is found exactly when the lower-cased term occurs in one of its present, lower-cased fields; absent fields never match. */
  lemma UserSearchSubstring(u: UserView, term: string)
    ensures MatchesUserSearch(u, term) <==>
              exists f, i :: 0 <= f < 6 && SearchFields(u)[f].Some?
                             && OccursAt(ToLower(SearchFields(u)[f].value), ToLower(term), i)
  {
    var fs := SearchFields(u);
    forall f | 0 <= f < 6 && fs[f].Some?
      ensures Contains(ToLower(fs[f].value), ToLower(term)) <==> exists i :: OccursAt(ToLower(fs[f].value), ToLower(term), i)
    {
      ContainsIff(ToLower(fs[f].value), ToLower(term));
    }
    if MatchesUserSearch(u, term) {
      var f := if FieldMatches(fs[0], term) then 0 else if FieldMatches(fs[1], term) then 1
               else if FieldMatches(fs[2], term) then 2 else if FieldMatches(fs[3], term) then 3
               else if FieldMatches(fs[4], term) then 4 else 5;
      assert FieldMatches(fs[f], term);
    }
    if exists f :: 0 <= f < 6 && FieldMatches(fs[f], term) {
      var f :| 0 <= f < 6 && FieldMatches(fs[f], term);
      assert f == 0 || f == 1 || f == 2 || f == 3 || f == 4 || f == 5;
    }
  }

  predicate SearchStep(u: UserView, searchTerm: string)
  {
    searchTerm == "" || MatchesUserSearch(u, searchTerm)
  }

  /** "creators" keeps users with a profile, "regular" those without, anything else everyone. */
  predicate TypeStep(u: UserView, userTypeFilter: string)
  {
    if userTypeFilter == "creators" then u.creator.Some?
    else if userTypeFilter == "regular" then u.creator.None?
    else true
  }

  /** `u.creator?.status === statusFilter` unless the filter is "all". */
  predicate StatusStep(u: UserView, statusFilter: string)
  {
    statusFilter == "all" || (u.creator.Some? && u.creator.value.status == statusFilter)
  }

  predicate Shown(u: UserView, searchTerm: string, statusFilter: string, userTypeFilter: string)
  {
    SearchStep(u, searchTerm) && TypeStep(u, userTypeFilter) && StatusStep(u, statusFilter)
  }

  function MatchesTest(searchTerm: string): UserView -> bool
  {
    u => MatchesUserSearch(u, searchTerm)
  }

  function SearchTest(searchTerm: string): UserView -> bool
  {
    u => SearchStep(u, searchTerm)
  }

  function TypeTest(userTypeFilter: string): UserView -> bool
  {
    u => TypeStep(u, userTypeFilter)
  }

  function StatusTest(statusFilter: string): UserView -> bool
  {
    u => StatusStep(u, statusFilter)
  }

  function SearchTypeTest(searchTerm: string, userTypeFilter: string): UserView -> bool
  {
    u => SearchStep(u, searchTerm) && TypeStep(u, userTypeFilter)
  }

  function ShownTest(searchTerm: string, statusFilter: string, userTypeFilter: string): UserView -> bool
  {
    u => Shown(u, searchTerm, statusFilter, userTypeFilter)
  }

  /** `filterUsers`: the search, then the user type, then the creator status, over a reassigned copy. */
  method FilterUsers(users: seq<UserView>, searchTerm: string, statusFilter: string, userTypeFilter: string)
    returns (filtered: seq<UserView>)
    ensures filtered == Filter(users, ShownTest(searchTerm, statusFilter, userTypeFilter))
    ensures IsSubsequence(filtered, users)
  {
    filtered := users;
    if searchTerm != "" {
      filtered := Filter(filtered, MatchesTest(searchTerm));
    }
    SearchStage(users, searchTerm);
    ghost var afterSearch := filtered;

    if userTypeFilter == "creators" {
      filtered := Filter(filtered, IsCreator);
    } else if userTypeFilter == "regular" {
      filtered := Filter(filtered, IsRegular);
    }
    TypeStage(afterSearch, userTypeFilter);
    ghost var afterType := filtered;

    if statusFilter != "all" {
      filtered := Filter(filtered, CreatorStatusIs(statusFilter));
    }
    StatusStage(afterType, statusFilter);

    FilterFilter(users, SearchTest(searchTerm), TypeTest(userTypeFilter), SearchTypeTest(searchTerm, userTypeFilter));
    FilterFilter(users, SearchTypeTest(searchTerm, userTypeFilter), StatusTest(statusFilter),
                 ShownTest(searchTerm, statusFilter, userTypeFilter));
    FilterIsSubsequence(users, ShownTest(searchTerm, statusFilter, userTypeFilter));
  }

  /** The search stage keeps the users that pass `SearchStep`. */
  lemma SearchStage(users: seq<UserView>, searchTerm: string)
    ensures (if searchTerm != "" then Filter(users, MatchesTest(searchTerm)) else users)
         == Filter(users, SearchTest(searchTerm))
  {
    if searchTerm != "" {
      FilterExt(users, MatchesTest(searchTerm), SearchTest(searchTerm));
    } else {
      FilterAllPass(users, SearchTest(searchTerm));
    }
  }

  /** The type stage keeps the users that pass `TypeStep`. */
  lemma TypeStage(users: seq<UserView>, userTypeFilter: string)
    ensures (if userTypeFilter == "creators" then Filter(users, IsCreator)
             else if userTypeFilter == "regular" then Filter(users, IsRegular)
             else users)
         == Filter(users, TypeTest(userTypeFilter))
  {
    if userTypeFilter == "creators" {
      FilterExt(users, IsCreator, TypeTest(userTypeFilter));
    } else if userTypeFilter == "regular" {
      FilterExt(users, IsRegular, TypeTest(userTypeFilter));
    } else {
      FilterAllPass(users, TypeTest(userTypeFilter));
    }
  }

  /** The status stage keeps the users that pass `StatusStep`. */
  lemma StatusStage(users: seq<UserView>, statusFilter: string)
    ensures (if statusFilter != "all" then Filter(users, CreatorStatusIs(statusFilter)) else users)
         == Filter(users, StatusTest(statusFilter))
  {
    if statusFilter != "all" {
      FilterExt(users, CreatorStatusIs(statusFilter), StatusTest(statusFilter));
    } else {
      FilterAllPass(users, StatusTest(statusFilter));
    }
  }

  /** An empty term with "all" for both filters shows every user. */
  lemma ShowAllIsIdentity(users: seq<UserView>)
    ensures Filter(users, ShownTest("", "all", "all")) == users
  {
    FilterAllPass(users, ShownTest("", "all", "all"));
  }

  /** Alone, "creators" keeps exactly the users with a profile, "regular" exactly those without, and any other type nobody less. */
  lemma TypeFilterExact(users: seq<UserView>, u: UserView)
    ensures u in Filter(users, ShownTest("", "all", "creators")) <==> u in users && u.creator.Some?
    ensures u in Filter(users, ShownTest("", "all", "regular")) <==> u in users && u.creator.None?
    ensures forall t :: t != "creators" && t != "regular" ==> Filter(users, ShownTest("", "all", t)) == users
  {
    FilterMembership(users, ShownTest("", "all", "creators"), u);
    FilterMembership(users, ShownTest("", "all", "regular"), u);
    forall t | t != "creators" && t != "regular" ensures Filter(users, ShownTest("", "all", t)) == users {
      FilterAllPass(users, ShownTest("", "all", t));
    }
  }

  /** A creator-status filter together with "regular" always shows nobody. */
  lemma RegularWithStatusIsEmpty(users: seq<UserView>, searchTerm: string, statusFilter: string)
    requires statusFilter != "all"
    ensures Filter(users, ShownTest(searchTerm, statusFilter, "regular")) == []
  {
    FilterNonePass(users, ShownTest(searchTerm, statusFilter, "regular"));
  }

  /** `getStatusBadge`: no badge for a missing or empty status, and every status other than "approved" and "rejected" reads "Pending". */
  function StatusBadge(status: Option<string>): (badge: Option<string>)
    ensures badge.None? <==> !Truthy(status)
    ensures badge == Some("Approved") <==> status == Some("approved")
    ensures badge == Some("Rejected") <==> status == Some("rejected")
    ensures badge == Some("Pending") <==> Truthy(status) && status.value != "approved" && status.value != "rejected"
  {
    if !Truthy(status) then None
    else if status.value == "approved" then Some("Approved")
    else if status.value == "rejected" then Some("Rejected")
    else Some("Pending")
  }

  // ---------------------------------------------------------------- counters

  datatype UserStats = UserStats(total: nat, creators: nat, regular: nat, approved: nat, pending: nat, rejected: nat)

  predicate IsCreator(u: UserView)
  {
    u.creator.Some?
  }

  predicate IsRegular(u: UserView)
  {
    u.creator.None?
  }

  function CreatorStatusIs(v: string): UserView -> bool
  {
    (u: UserView) => u.creator.Some? && u.creator.value.status == v
  }

  /** `stats`. */
  function ComputeStats(users: seq<UserView>): UserStats
  {
    UserStats(|users|, |Filter(users, IsCreator)|, |Filter(users, IsRegular)|,
              |Filter(users, CreatorStatusIs("approved"))|, |Filter(users, CreatorStatusIs("pending"))|,
              |Filter(users, CreatorStatusIs("rejected"))|)
  }

  /** Every user is a creator or regular, and the three application counters count creators only. */
  lemma StatsBounds(users: seq<UserView>)
    ensures ComputeStats(users).creators + ComputeStats(users).regular == ComputeStats(users).total
    ensures ComputeStats(users).approved + ComputeStats(users).pending + ComputeStats(users).rejected
         <= ComputeStats(users).creators
  {
    FilterComplement(users, IsCreator, IsRegular);
    var approvedOrPending := u => CreatorStatusIs("approved")(u) || CreatorStatusIs("pending")(u);
    var anyOfThree := u => approvedOrPending(u) || CreatorStatusIs("rejected")(u);
    FilterDisjoint(users, CreatorStatusIs("approved"), CreatorStatusIs("pending"), approvedOrPending);
    FilterDisjoint(users, approvedOrPending, CreatorStatusIs("rejected"), anyOfThree);
    FilterMonotone(users, anyOfThree, IsCreator);
  }

  // ---------------------------------------------------------------- the staff's status change

  function UserIdIs(userId: string): Creator -> bool
  {
    (c: Creator) => c.userId == userId
  }

  function StatusTo(newStatus: string): Creator -> Creator
  {
    (c: Creator) => c.(status := newStatus)
  }

  /** `update({ status }).eq("user_id", userId)` on the creators table. */
  function SetCreatorStatus(rows: seq<Creator>, userId: string, newStatus: string): seq<Creator>
  {
    UpdateWhere(rows, UserIdIs(userId), StatusTo(newStatus))
  }

  /** Only the profiles of that user change, and in them only `status`. */
  lemma SetCreatorStatusFrame(rows: seq<Creator>, userId: string, newStatus: string)
    ensures |SetCreatorStatus(rows, userId, newStatus)| == |rows|
    ensures forall i :: 0 <= i < |rows| && rows[i].userId != userId ==> SetCreatorStatus(rows, userId, newStatus)[i] == rows[i]
    ensures forall i :: 0 <= i < |rows| && rows[i].userId == userId ==>
              SetCreatorStatus(rows, userId, newStatus)[i] == rows[i].(status := newStatus)
  {
  }

  /**
   * After the change, the reloaded join shows that user's profile with the new status
   * and every other user's profile as it was.
   */
  lemma {:induction false} JoinSeesNewStatus(rows: seq<Creator>, userId: string, newStatus: string, k: string)
    ensures CreatorFor(SetCreatorStatus(rows, userId, newStatus), Some(k)) ==
              if k == userId && CreatorFor(rows, Some(k)).Some?
              then Some(CreatorFor(rows, Some(k)).value.(status := newStatus))
              else CreatorFor(rows, Some(k))
    decreases |rows|
  {
    if rows != [] {
      var init := rows[..|rows| - 1];
      var after := SetCreatorStatus(rows, userId, newStatus);
      assert after[..|after| - 1] == SetCreatorStatus(init, userId, newStatus);
      JoinSeesNewStatus(init, userId, newStatus, k);
    }
  }

  /** The creators table of the data store, as the page's updates see it. */
  class CreatorTable {
    var rows: seq<Creator>

    constructor (initial: seq<Creator>)
      ensures rows == initial
    {
      rows := initial;
    }

    /** `updateCreatorStatus`: every profile of that user gets the new status; a failed update changes nothing. */
    method UpdateCreatorStatus(userId: string, newStatus: string, failed: bool)
      modifies this
      ensures rows == if failed then old(rows) else SetCreatorStatus(old(rows), userId, newStatus)
    {
      if !failed {
        rows := SetCreatorStatus(rows, userId, newStatus);
      }
    }
  }
}
