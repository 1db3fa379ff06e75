/**
 * The dashboard's "Recent Activity" panel: the relative time of an event, the entries
 * built from the recent purchases, users and products, their merge into a feed of at
 * most eight entries, newest first, and the page a click on an entry opens.
 */
module ActivityFeed {
  import opened Wrappers
  import opened Text
  import opened Seqs
  import opened Schema

  // ---------------------------------------------------------------- time ago

  /** `Math.floor((now - time) / 1000)` on millisecond instants; negative when the event is in the future. */
  function ElapsedSeconds(nowMs: int, thenMs: int): (s: int)
    ensures s * 1000 <= nowMs - thenMs < (s + 1) * 1000
  {
    (nowMs - thenMs) / 1000
  }

  /** The four ways `getTimeAgo` reads an elapsed time. */
  datatype Ago = JustNow | MinutesAgo(minutes: nat) | HoursAgo(hours: nat) | DaysAgo(days: nat)

  /** The bucket of an elapsed number of seconds, the count rounded down. */
  function Bucket(s: int): (a: Ago)
    ensures a.JustNow? <==> s < 60
    ensures a.MinutesAgo? <==> 60 <= s < 3600
    ensures a.HoursAgo? <==> 3600 <= s < 86400
    ensures a.DaysAgo? <==> 86400 <= s
    ensures a.MinutesAgo? ==> 1 <= a.minutes < 60 && a.minutes * 60 <= s < (a.minutes + 1) * 60
    ensures a.HoursAgo? ==> 1 <= a.hours < 24 && a.hours * 3600 <= s < (a.hours + 1) * 3600
    ensures a.DaysAgo? ==> 1 <= a.days && a.days * 86400 <= s < (a.days + 1) * 86400
  {
    if s < 60 then JustNow
    else if s < 3600 then MinutesAgo(s / 60)
    else if s < 86400 then HoursAgo(s / 3600)
    else DaysAgo(s / 86400)
  }

  /** The text shown, with the unit always in the plural. */
  function Render(a: Ago): string
  {
    match a
    case JustNow => "Just now"
    case MinutesAgo(n) => NatToString(n) + " minutes ago"
    case HoursAgo(n) => NatToString(n) + " hours ago"
    case DaysAgo(n) => NatToString(n) + " days ago"
  }

  /** `getTimeAgo`, given the elapsed seconds. */
  function TimeAgo(s: int): string
  {
    Render(Bucket(s))
  }

  /** Reads a rendered relative time back: the leading count and the unit after it. */
  function ReadAgo(text: string): Option<Ago>
  {
    if text == "Just now" then Some(JustNow)
    else
      var digits := LeadingDigits(text);
      var unit := text[|digits|..];
      if digits == [] then None
      else if unit == " minutes ago" then Some(MinutesAgo(ParseNat(digits)))
      else if unit == " hours ago" then Some(HoursAgo(ParseNat(digits)))
      else if unit == " days ago" then Some(DaysAgo(ParseNat(digits)))
      else None
  }

  /** Every rendered text reads back as the bucket it came from, so two buckets never share a text. */
  lemma ReadRender(a: Ago)
    ensures ReadAgo(Render(a)) == Some(a)
  {
    match a
    case JustNow =>
    case MinutesAgo(n) => ReadCount(n, " minutes ago");
    case HoursAgo(n) => ReadCount(n, " hours ago");
    case DaysAgo(n) => ReadCount(n, " days ago");
  }

  lemma ReadCount(n: nat, unit: string)
    requires unit != [] && unit[0] == ' '
    ensures LeadingDigits(NatToString(n) + unit) == NatToString(n)
    ensures (NatToString(n) + unit)[|NatToString(n)|..] == unit
    ensures NatToString(n) + unit != "Just now"
    ensures ParseNat(NatToString(n)) == n
  {
    DigitsThenRest(NatToString(n), unit);
    ParseNatToString(n);
    assert IsDigit((NatToString(n) + unit)[0]);
  }

  /** The text of an elapsed time shows its rounded-down count in the unit of its bucket. */
  lemma TimeAgoShowsCount(s: int)
    ensures s < 60 ==> ReadAgo(TimeAgo(s)) == Some(JustNow)
    ensures 60 <= s < 3600 ==> ReadAgo(TimeAgo(s)) == Some(MinutesAgo(s / 60))
    ensures 3600 <= s < 86400 ==> ReadAgo(TimeAgo(s)) == Some(HoursAgo(s / 3600))
    ensures 86400 <= s ==> ReadAgo(TimeAgo(s)) == Some(DaysAgo(s / 86400))
  {
    ReadRender(Bucket(s));
  }

  /** The boundaries of the first two buckets. */
  lemma MinuteBoundaries()
    ensures TimeAgo(59) == "Just now"
    ensures TimeAgo(60) == "1 minutes ago"
    ensures TimeAgo(3599) == "59 minutes ago"
  {
    assert NatToString(59) == "59";
  }

  /** The boundaries of the last two buckets. */
  lemma HourDayBoundaries()
    ensures TimeAgo(3600) == "1 hours ago"
    ensures TimeAgo(86399) == "23 hours ago"
    ensures TimeAgo(86400) == "1 days ago"
  {
    assert NatToString(23) == "23";
  }

  // ---------------------------------------------------------------- the entries

  datatype ActivityKind = PurchaseMade | UserJoined | ProductCreated

  /** An entry: `amount` in cents for purchases; `time` is the relative time when the feed was built. */
  datatype Activity = Activity(
    id: Option<string>,
    kind: ActivityKind,
    user: Option<string>,
    username: Option<string>,
    action: string,
    time: string,
    amount: Option<int>,
    timestamp: int)

  /** The buyer embedded in a recent purchase. */
  datatype Buyer = Buyer(name: Option<string>, username: Option<string>)

  /** A row of the recent-purchases query, with its buyer and its product's title when the join found them. */
  datatype RecentPurchase = RecentPurchase(id: string, amount: int, createdAt: int,
                                           user: Option<Buyer>, productTitle: Option<string>)

  /** A row of the recent-products query, with its owner's username when the join found one. */
  datatype RecentProduct = RecentProduct(id: string, title: string, createdAt: int, ownerUsername: Option<string>)

  function PurchaseActivity(p: RecentPurchase, nowMs: int): Activity
  {
    Activity(
      Some(p.id), PurchaseMade,
      Some(OrElse(if p.user.Some? then p.user.value.name else None, "Unknown User")),
      if p.user.Some? then p.user.value.username else None,
      "Purchased " + OrElse(p.productTitle, "a product"),
      TimeAgo(ElapsedSeconds(nowMs, p.createdAt)),
      Some(p.amount),
      p.createdAt)
  }

  function UserActivity(u: UserRow, nowMs: int): Activity
  {
    Activity(u.id, UserJoined, u.name, u.username, "Joined the platform",
             TimeAgo(ElapsedSeconds(nowMs, u.createdAt)), None, u.createdAt)
  }

  function ProductActivity(p: RecentProduct, nowMs: int): Activity
  {
    Activity(Some(p.id), ProductCreated, Some(OrElse(p.ownerUsername, "Unknown")), None,
             "Created product \"" + p.title + "\"",
             TimeAgo(ElapsedSeconds(nowMs, p.createdAt)), None, p.createdAt)
  }

  function PurchaseEntries(nowMs: int): RecentPurchase -> Activity
  {
    p => PurchaseActivity(p, nowMs)
  }

  function UserEntries(nowMs: int): UserRow -> Activity
  {
    u => UserActivity(u, nowMs)
  }

  function ProductEntries(nowMs: int): RecentProduct -> Activity
  {
    p => ProductActivity(p, nowMs)
  }

  /** The list before sorting: the purchases, then the users, then the products, each in query order. */
  function Activities(ps: seq<RecentPurchase>, us: seq<UserRow>, prs: seq<RecentProduct>, nowMs: int): seq<Activity>
  {
    Map(ps, PurchaseEntries(nowMs)) + Map(us, UserEntries(nowMs)) + Map(prs, ProductEntries(nowMs))
  }

  /** The three `forEach` loops pushing onto `activities`; a failed query adds nothing. */
  method CollectActivities(recentPurchases: Option<seq<RecentPurchase>>, recentUsers: Option<seq<UserRow>>,
                           recentProducts: Option<seq<RecentProduct>>, nowMs: int)
    returns (activities: seq<Activity>)
    ensures activities == Activities(Rows(recentPurchases), Rows(recentUsers), Rows(recentProducts), nowMs)
  {
    var ps, us, prs := Rows(recentPurchases), Rows(recentUsers), Rows(recentProducts);
    var purchaseEntry, userEntry, productEntry := PurchaseEntries(nowMs), UserEntries(nowMs), ProductEntries(nowMs);
    activities := [];
    var i := 0;
    while i < |ps|
      invariant 0 <= i <= |ps|
      invariant activities == Map(ps[..i], purchaseEntry)
    {
      MapPush(ps, purchaseEntry, i);
      activities := activities + [purchaseEntry(ps[i])];
      i := i + 1;
    }
    assert ps[..i] == ps;
    ghost var purchased := activities;
    i := 0;
    while i < |us|
      invariant 0 <= i <= |us|
      invariant activities == purchased + Map(us[..i], userEntry)
    {
      MapPush(us, userEntry, i);
      activities := activities + [userEntry(us[i])];
      i := i + 1;
    }
    assert us[..i] == us;
    ghost var joined := activities;
    i := 0;
    while i < |prs|
      invariant 0 <= i <= |prs|
      invariant activities == joined + Map(prs[..i], productEntry)
    {
      MapPush(prs, productEntry, i);
      activities := activities + [productEntry(prs[i])];
      i := i + 1;
    }
    assert prs[..i] == prs;
  }

  function IsKind(k: ActivityKind): Activity -> bool
  {
    (a: Activity) => a.kind == k
  }

  /** The list holds one purchase entry per recent purchase, one join entry per recent user and one product entry per recent product. */
  lemma ActivitiesKinds(ps: seq<RecentPurchase>, us: seq<UserRow>, prs: seq<RecentProduct>, nowMs: int)
    ensures |Activities(ps, us, prs, nowMs)| == |ps| + |us| + |prs|
    ensures |Filter(Activities(ps, us, prs, nowMs), IsKind(PurchaseMade))| == |ps|
    ensures |Filter(Activities(ps, us, prs, nowMs), IsKind(UserJoined))| == |us|
    ensures |Filter(Activities(ps, us, prs, nowMs), IsKind(ProductCreated))| == |prs|
  {
    var a, b, c := Map(ps, PurchaseEntries(nowMs)), Map(us, UserEntries(nowMs)), Map(prs, ProductEntries(nowMs));
    EntryKinds(ps, us, prs, nowMs);
    assert |Filter(a + b + c, IsKind(PurchaseMade))| == |ps| by {
      KindCount(a, b, c, PurchaseMade);
      FilterAllPass(a, IsKind(PurchaseMade));
      FilterNonePass(b, IsKind(PurchaseMade));
      FilterNonePass(c, IsKind(PurchaseMade));
    }
    assert |Filter(a + b + c, IsKind(UserJoined))| == |us| by {
      KindCount(a, b, c, UserJoined);
      FilterNonePass(a, IsKind(UserJoined));
      FilterAllPass(b, IsKind(UserJoined));
      FilterNonePass(c, IsKind(UserJoined));
    }
    assert |Filter(a + b + c, IsKind(ProductCreated))| == |prs| by {
      KindCount(a, b, c, ProductCreated);
      FilterNonePass(a, IsKind(ProductCreated));
      FilterNonePass(b, IsKind(ProductCreated));
      FilterAllPass(c, IsKind(ProductCreated));
    }
  }

  lemma EntryKinds(ps: seq<RecentPurchase>, us: seq<UserRow>, prs: seq<RecentProduct>, nowMs: int)
    ensures forall i :: 0 <= i < |ps| ==> Map(ps, PurchaseEntries(nowMs))[i].kind == PurchaseMade
    ensures forall i :: 0 <= i < |us| ==> Map(us, UserEntries(nowMs))[i].kind == UserJoined
    ensures forall i :: 0 <= i < |prs| ==> Map(prs, ProductEntries(nowMs))[i].kind == ProductCreated
  {
  }

  lemma KindCount(a: seq<Activity>, b: seq<Activity>, c: seq<Activity>, k: ActivityKind)
    ensures |Filter(a + b + c, IsKind(k))| == |Filter(a, IsKind(k))| + |Filter(b, IsKind(k))| + |Filter(c, IsKind(k))|
  {
    FilterAppend(a + b, c, IsKind(k));
    FilterAppend(a, b, IsKind(k));
  }

  // ---------------------------------------------------------------- the feed

  function Timestamp(a: Activity): int
  {
    a.timestamp
  }

  const FeedSize: nat := 8

  /** `activities.sort((a, b) => b.timestamp - a.timestamp)` (a stable sort) followed by `slice(0, 8)`. */
  function Newest(activities: seq<Activity>): seq<Activity>
  {
    Take(SortDesc(activities, Timestamp), FeedSize)
  }

  /** The feed `loadDashboardData` stores from the three recent-row queries. */
  method RecentActivity(recentPurchases: Option<seq<RecentPurchase>>, recentUsers: Option<seq<UserRow>>,
                        recentProducts: Option<seq<RecentProduct>>, nowMs: int)
    returns (feed: seq<Activity>)
    ensures feed == Newest(Activities(Rows(recentPurchases), Rows(recentUsers), Rows(recentProducts), nowMs))
  {
    var activities := CollectActivities(recentPurchases, recentUsers, recentProducts, nowMs);
    var sorted := SortDesc(activities, Timestamp);
    feed := Take(sorted, FeedSize);
  }

  /** The feed holds the eight newest entries (all of them when there are fewer), newest first, each one of the pushed entries. */
  lemma NewestShape(activities: seq<Activity>)
    ensures |Newest(activities)| == if |activities| < 8 then |activities| else 8
    ensures SortedDesc(Newest(activities), Timestamp)
    ensures multiset(Newest(activities)) <= multiset(activities)
  {
    SortedTake(SortDesc(activities, Timestamp), Timestamp, FeedSize);
  }

  /** Every entry left out of the feed is no newer than any entry shown. */
  lemma NewestOmitsOnlyOlder(activities: seq<Activity>)
    ensures forall x, i :: x in multiset(activities) - multiset(Newest(activities)) && 0 <= i < |Newest(activities)|
              ==> x.timestamp <= Newest(activities)[i].timestamp
  {
    SortedTakeOmitsSmaller(SortDesc(activities, Timestamp), Timestamp, FeedSize);
  }

  /** Entries with equal timestamps keep the order in which they were pushed: the stable sort followed by a slice. */
  lemma NewestIsStable(activities: seq<Activity>, t: int)
    ensures PrefixOf(WithKey(Newest(activities), Timestamp, t), WithKey(activities, Timestamp, t))
  {
    var sorted := SortDesc(activities, Timestamp);
    var feed := Newest(activities);
    assert sorted == feed + sorted[|feed|..];
    SortDescStable(activities, Timestamp, t);
    WithKeyAppend(feed, sorted[|feed|..], Timestamp, t);
  }

  /** `p` is a prefix of `s`, for any element type. */
  predicate PrefixOf<T(==)>(p: seq<T>, s: seq<T>)
  {
    |p| <= |s| && p == s[..|p|]
  }

  /** The feed never shows more entries of a kind than its query returned rows. */
  lemma {:induction false} NewestKindBound(activities: seq<Activity>, k: ActivityKind)
    ensures |Filter(Newest(activities), IsKind(k))| <= |Filter(activities, IsKind(k))|
  {
    var sorted := SortDesc(activities, Timestamp);
    var feed := Newest(activities);
    assert sorted == feed + sorted[|feed|..];
    FilterAppend(feed, sorted[|feed|..], IsKind(k));
    SortDescCount(activities, Timestamp, IsKind(k));
  }

  /** With the queries' limits (five purchases, three users, three products) the feed draws at most that many of each. */
  lemma FeedDrawsFromLimits(ps: seq<RecentPurchase>, us: seq<UserRow>, prs: seq<RecentProduct>, nowMs: int)
    requires |ps| <= 5 && |us| <= 3 && |prs| <= 3
    ensures |Filter(Newest(Activities(ps, us, prs, nowMs)), IsKind(PurchaseMade))| <= 5
    ensures |Filter(Newest(Activities(ps, us, prs, nowMs)), IsKind(UserJoined))| <= 3
    ensures |Filter(Newest(Activities(ps, us, prs, nowMs)), IsKind(ProductCreated))| <= 3
  {
    ActivitiesKinds(ps, us, prs, nowMs);
    NewestKindBound(Activities(ps, us, prs, nowMs), PurchaseMade);
    NewestKindBound(Activities(ps, us, prs, nowMs), UserJoined);
    NewestKindBound(Activities(ps, us, prs, nowMs), ProductCreated);
  }

  // ---------------------------------------------------------------- routing

  /** `handleActivityClick`: the page an entry opens, if any. */
  function ActivityRoute(a: Activity): (route: Option<string>)
    ensures route == Some("/payments") <==> a.kind == PurchaseMade
    ensures route == Some("/users") <==> a.kind == UserJoined && Truthy(a.id)
    ensures route == Some("/products") <==> a.kind == ProductCreated && Truthy(a.id)
    ensures route.None? <==> a.kind != PurchaseMade && !Truthy(a.id)
  {
    if a.kind == UserJoined && Truthy(a.id) then Some("/users")
    else if a.kind == ProductCreated && Truthy(a.id) then Some("/products")
    else if a.kind == PurchaseMade then Some("/payments")
    else assert a.kind.UserJoined? || a.kind.ProductCreated?; None
  }

  /** Every purchase entry opens the payments page; a join entry opens the users page exactly when the user has an id. */
  lemma FeedEntriesRoute(p: RecentPurchase, u: UserRow, pr: RecentProduct, nowMs: int)
    ensures ActivityRoute(PurchaseActivity(p, nowMs)) == Some("/payments")
    ensures ActivityRoute(UserActivity(u, nowMs)) == (if Truthy(u.id) then Some("/users") else None)
    ensures ActivityRoute(ProductActivity(pr, nowMs)) == (if pr.id != "" then Some("/products") else None)
  {
  }
}
