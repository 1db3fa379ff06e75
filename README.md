# Admin dashboard data logic, modelled in Dafny

This project models the data-shaping logic of a marketplace's admin dashboard. The
dashboard has four pages:

- **Dashboard** shows the stat cards, a seven-day revenue chart and a "Recent Activity"
  feed.
- **Users & Creators** lists accounts, with each account's creator application.
- **Products** is the moderation list of listed goods.
- **Payments** lists creators' withdrawal requests.

Each page receives rows from the data store. It then joins, filters, counts and sums
them in the browser. When the staff update a status, the page changes rows in the
store.

The model takes the rows as values:

- A nullable column is an `Option`.
- Money is an integer number of cents.
- An instant is an integer number of milliseconds.
- A query result is `None` when the query failed. The pages read a failed query as
  "no rows" (`data?.… || 0`, `data || []`).

The files:

| file | module | models |
|---|---|---|
| `wrappers.dfy` | `Wrappers` | `Option`, and `Rows`, which reads a query result as its rows |
| `text.dfy` | `Text` | ASCII lower-casing, `includes`, JavaScript truthiness and `\|\|` on nullable strings, decimal rendering of a count |
| `seqs.dfy` | `Seqs` | `filter`, `reduce` to a sum, a stable `sort` by a numeric key, `slice`, the store's keyed `update … eq`, and the `forEach` that fills a lookup dictionary |
| `schema.dfy` | `Schema` | the rows of `users`, `creators`, `products`, `purchases` and `withdrawals` |
| `dashboard.dfy` | `Dashboard` | the stat cards, including the NaN produced by `parseFloat(null)`, and the seven-day chart |
| `activity.dfy` | `ActivityFeed` | `getTimeAgo`, the activity entries, the merged feed, and `handleActivityClick` |
| `users.dfy` | `Users` | the manual creator join, `filterUsers`, `stats`, `getStatusBadge`, and `updateCreatorStatus` |
| `products.dfy` | `Products` | the manual owner join with its de-duplicated id list, `filterProducts`, `stats`, `getStatusBadge`, and `updateStatus` |
| `payments.dfy` | `Payments` | the row mapping, `filterWithdrawals`, `calculateStats`, `updateWithdrawalStatus`, and the pending-only "Mark as Paid" action |

Each page's code is modelled in the form it has.

Step-by-step code is written as methods:

- A `filtered` variable reassigned stage by stage is a method that reassigns a
  local. It is proved equal to one `Filter` by the conjunction of the stages.
- A dictionary filled by `forEach` is `Seqs.BuildIndex`, a loop over a `map`.
- Arrays filled by `push` are loops: the activity list and the chart's count-down loop.
- A status update on a table is a method of a class. The class holds that table's
  rows. The method takes a `failed` flag: an update that the store rejects leaves
  the rows as they were.

Expressions (`filter(...).length`, `reduce`) are functions. The lemmas beside them
state the pages' promises.

A note on the Dashboard's "Total Revenue" card. It sums `parseFloat(net_amount)` over
the paid withdrawals, and `parseFloat(null)` is NaN. NaN absorbs the rest of the
sum, and then `|| 0` shows 0. So one paid withdrawal without a net amount shows a
revenue of 0. It also makes the balance equal to the whole of the earnings.

The Payments page instead counts a missing net as 0. `Dashboard.ReduceNetSpec`
states this behaviour. `Dashboard.RevenueAgreesWithPayments` states when the two
pages agree.

## Model

| member | source | states |
|---|---|---|
| Dashboard.Where | src/pages/Dashboard.jsx:66-78 | a query with an `.eq` filter fails exactly when its table read fails; otherwise it returns an order-preserving subsequence of the table that holds a row exactly when the table holds it and it passes the test |
| Dashboard.ReduceNetSpec | src/pages/Dashboard.jsx:105 | summing `parseFloat(net_amount)` from the left is NaN exactly when some row has no net amount, and otherwise is the starting value plus the sum of the nets |
| Dashboard.ReduceNetOfNaN | src/pages/Dashboard.jsx:105 | once the running sum is NaN it stays NaN |
| Dashboard.PaidNetsPresentInFilter | src/pages/Dashboard.jsx:105 | every paid withdrawal has a net amount exactly when every row that the paid-withdrawals query returns has one |
| Dashboard.ProductsSoldCountsPaid | src/pages/Dashboard.jsx:99 | products sold is the number of paid purchases, and it is 0 exactly when no purchase is paid or the query failed |
| Dashboard.EarningsAndRevenue | src/pages/Dashboard.jsx:102-105 | creator earnings is the sum of the amounts of the paid purchases; total revenue is the sum of the nets of the paid withdrawals when each has one, and 0 otherwise |
| Dashboard.EmptyTablesShowZero | src/pages/Dashboard.jsx:99-111 | with empty tables or failed queries, every money card and every count reads 0 |
| Dashboard.BalanceIdentity | src/pages/Dashboard.jsx:108-117 | total withdrawn equals total revenue, the balance is earnings minus revenue, and the "Pending Withdrawals" card shows the balance |
| Dashboard.BalanceCanBeNegative | src/pages/Dashboard.jsx:108 | the balance is not clamped: one paid withdrawal with net 500 and no sales gives a balance of -500 |
| Dashboard.ActiveProductsBound | src/pages/Dashboard.jsx:111 | active products counts the rows that are both active and approved, so it never exceeds the number of active rows |
| Dashboard.PaidPurchaseRaisesBalance | src/pages/Dashboard.jsx:99-108 | one more paid purchase adds one sale, and adds its amount to both the earnings and the balance |
| Dashboard.MarkPaidMovesNet | src/pages/Dashboard.jsx:105-108 | marking a pending withdrawal paid raises revenue by its net and lowers the balance by it, when every paid row has a net amount |
| Dashboard.RevenueAgreesWithPayments | src/pages/Dashboard.jsx:105 | when every paid withdrawal has a net amount, the revenue card equals the paid total of the Payments page; otherwise the card reads 0 |
| Dashboard.Last7Days | src/pages/Dashboard.jsx:171-187 | the chart loop over the paid-purchases query (the same `Where` as the stat cards) yields exactly seven points, for day `today-6+k` at position `k`, each carrying the revenue of the purchases table's paid rows created that day |
| Dashboard.ChartDaysConsecutive | src/pages/Dashboard.jsx:173-176 | the last point of the chart is today, and each point is the day after the one before it |
| Dashboard.QuietDayIsZero | src/pages/Dashboard.jsx:178-180 | a day with no paid purchase has revenue 0 |
| Dashboard.WindowRevenueIsFilter | src/pages/Dashboard.jsx:178-180 | the per-day sums over a run of days add up to the revenue of the purchases created in that run |
| Dashboard.SeriesSum | src/pages/Dashboard.jsx:171-187 | the points of a series of consecutive days add up to the per-day sums of those days |
| Dashboard.ChartTotal | src/pages/Dashboard.jsx:171-187 | the seven bars together show exactly the summed amounts of the purchases table's paid rows created in the last seven days, today included |
| ActivityFeed.ElapsedSeconds | src/pages/Dashboard.jsx:203-205 | the elapsed seconds are the elapsed milliseconds divided by 1000 and rounded down |
| ActivityFeed.Bucket | src/pages/Dashboard.jsx:207-210 | below 60 s reads "Just now", below 3600 s whole minutes (1-59), below 86400 s whole hours (1-23), and otherwise whole days (at least 1), each count rounded down |
| ActivityFeed.ReadRender | src/pages/Dashboard.jsx:207-210 | every rendered relative time reads back as the bucket and count it came from, so two buckets never share a text |
| ActivityFeed.ReadCount | src/pages/Dashboard.jsx:208-210 | a count followed by its unit splits back into the digits of the count and the unit |
| ActivityFeed.TimeAgoShowsCount | src/pages/Dashboard.jsx:202-211 | the text shows the floor of the seconds divided by 60, 3600 or 86400, in the unit of its bucket |
| ActivityFeed.MinuteBoundaries | src/pages/Dashboard.jsx:207-208 | 59 s reads "Just now", 60 s reads "1 minutes ago", and 3599 s reads "59 minutes ago" |
| ActivityFeed.HourDayBoundaries | src/pages/Dashboard.jsx:209-210 | 3600 s reads "1 hours ago", 86399 s reads "23 hours ago", and 86400 s reads "1 days ago" |
| ActivityFeed.CollectActivities | src/pages/Dashboard.jsx:125-164 | the three push loops build the purchase entries, then the user entries, then the product entries, each in query order; a failed query adds nothing |
| ActivityFeed.EntryKinds | src/pages/Dashboard.jsx:128-164 | entries built from purchases, users and products are of the purchase, join and new-product kind respectively |
| ActivityFeed.ActivitiesKinds | src/pages/Dashboard.jsx:125-164 | the list has one purchase entry per recent purchase, one join entry per recent user, and one product entry per recent product |
| ActivityFeed.RecentActivity | src/pages/Dashboard.jsx:125-168 | the stored feed is the pushed list, stably sorted newest first and cut to eight |
| ActivityFeed.NewestShape | src/pages/Dashboard.jsx:167-168 | the feed has min(8, n) entries, newest first, each one an entry that was pushed |
| ActivityFeed.NewestOmitsOnlyOlder | src/pages/Dashboard.jsx:167-168 | every entry left out of the feed is no newer than any entry shown |
| ActivityFeed.NewestIsStable | src/pages/Dashboard.jsx:167-168 | among entries with equal timestamps, the feed keeps the push order (purchases, then users, then products) |
| ActivityFeed.NewestKindBound | src/pages/Dashboard.jsx:167-168 | the feed never holds more entries of a kind than were pushed |
| ActivityFeed.FeedDrawsFromLimits | src/pages/Dashboard.jsx:87-93 | with the queries' limits of 5, 3 and 3, the feed holds at most 5 purchases, 3 joins and 3 new products |
| ActivityFeed.ActivityRoute | src/pages/Dashboard.jsx:226-234 | a purchase opens the payments page; a join or new product with a truthy id opens the users or products page; anything else opens nothing |
| ActivityFeed.FeedEntriesRoute | src/pages/Dashboard.jsx:226-234 | every purchase entry opens payments; a join entry opens users exactly when the user has a non-empty id; a product entry opens products exactly when its id is non-empty |
| Seqs.SortDescStable | src/pages/Dashboard.jsx:167 | sorting by timestamp, newest first, keeps the relative order of entries with equal timestamps |
| Seqs.BuildIndex | src/pages/Users.jsx:86-89 | the dictionary filled by `forEach` has a key exactly when some row has it, and maps it to the last such row |
| Users.TruthyIds | src/pages/Users.jsx:77 | the id list holds exactly the non-empty user ids, and is non-empty exactly when some user has one |
| Users.CreatorForSpec | src/pages/Users.jsx:86-93 | a user's creator is the last creators row with that user id, and there is none exactly when no row has it |
| Users.EmbeddedUsers | src/pages/Users.jsx:103-110 | the embedded tiers show one entry per returned user, in order, with its embedded creator, or none when it is null |
| Users.LoadUsers | src/pages/Users.jsx:23-116 | the first embedded query that returns rows decides the list; when both fail, the manual join's list, with its failed-query, no-id and creators-error cases |
| Users.JoinCreators | src/pages/Users.jsx:64-102 | a failed users query shows nobody; otherwise there is one entry per user, in order, with that user's creator, or with none when there is no id to ask for or the creators query failed |
| Users.UserSearchSubstring | src/pages/Users.jsx:122-131 | a user is found exactly when the lower-cased term occurs in the lower-cased text of a present field: name, username, email, phone, or the creator's full name or IC number |
| Users.FilterUsers | src/pages/Users.jsx:119-145 | the search, then the type filter, then the status filter give the order-preserving subsequence of users that pass all three |
| Users.SearchStage | src/pages/Users.jsx:122-132 | the search stage keeps exactly the users that pass the search, or everyone when the term is empty |
| Users.TypeStage | src/pages/Users.jsx:134-138 | the type stage keeps exactly the users whose type matches the filter |
| Users.StatusStage | src/pages/Users.jsx:140-142 | the status stage keeps exactly the users whose creator status matches the filter, or everyone for "all" |
| Users.ShowAllIsIdentity | src/pages/Users.jsx:122-142 | an empty term, with "all" for both the type and the status, shows every user unchanged |
| Users.TypeFilterExact | src/pages/Users.jsx:134-138 | "creators" keeps exactly the users with a creator, "regular" exactly those without, and any other value keeps everyone |
| Users.RegularWithStatusIsEmpty | src/pages/Users.jsx:134-142 | any status filter other than "all", combined with "regular", shows nobody |
| Users.StatusBadge | src/pages/Users.jsx:164-190 | a missing or empty status has no badge; "approved" and "rejected" read as such, and any other status reads "Pending" |
| Users.StatsBounds | src/pages/Users.jsx:192-199 | creators plus regular users is the total, and approved plus pending plus rejected never exceeds the creators |
| Users.SetCreatorStatusFrame | src/pages/Users.jsx:147-153 | only the creators rows of that user change, and in them only the status |
| Users.JoinSeesNewStatus | src/pages/Users.jsx:147-157 | after the update, the reloaded join shows that user's creator with the new status, and every other user's creator as before |
| Users.CreatorTable.UpdateCreatorStatus | src/pages/Users.jsx:147-162 | the table becomes the keyed update of the old rows, or stays as it was when the store rejects the update |
| Products.TruthyOwnerIds | src/pages/Products.jsx:63 | the id list holds exactly the non-empty owner ids |
| Products.Dedup | src/pages/Products.jsx:63 | de-duplicating keeps the same members and leaves no id twice |
| Products.DedupFirstSeenOrder | src/pages/Products.jsx:63 | the de-duplicated ids come in the order in which each was first seen, as a `Set` iterates |
| Products.OwnerIdsSpec | src/pages/Products.jsx:63 | the ids asked for are the non-empty owner ids, each once, and there is one exactly when some product has an owner id |
| Products.OwnerForSpec | src/pages/Products.jsx:72-80 | a product's owner is the last users row with that id, and there is none exactly when no row has it |
| Products.EmbeddedProducts | src/pages/Products.jsx:89-96 | the embedded tiers show one entry per returned product, in order, with its embedded owner, or none when it is null |
| Products.LoadProducts | src/pages/Products.jsx:21-102 | the first embedded query that returns rows decides the list; when both fail, the manual join's list, with its failed-query, no-id and users-error cases |
| Products.JoinOwners | src/pages/Products.jsx:50-88 | a failed products query shows nothing; otherwise there is one entry per product, in order, with `userMap[owner_id]`, or with no owner when there are no ids or the users query failed |
| Products.ProductSearchSubstring | src/pages/Products.jsx:108-115 | a product is found exactly when the lower-cased term occurs in its title, its category or its owner's username, and absent fields never match |
| Products.FilterProducts | src/pages/Products.jsx:105-122 | the search, then the status filter, give the order-preserving subsequence of products that pass both |
| Products.ShowAllIsIdentity | src/pages/Products.jsx:108-119 | an empty term with "all" shows every product unchanged |
| Products.ShownMembership | src/pages/Products.jsx:105-122 | a product is shown exactly when it is listed, passes the search, and its status equals the filter or the filter is "all" |
| Products.StatsBound | src/pages/Products.jsx:167-172 | approved plus review plus rejected never exceeds the total |
| Products.StatusBadge | src/pages/Products.jsx:141-164 | "approved" and "rejected" read as such, and every other status reads "In Review" |
| Products.SetProductStatusFrame | src/pages/Products.jsx:124-130 | only the rows with that id change, and in them only the status |
| Products.StatsOfRows | src/pages/Products.jsx:167-172 | the counters of the shown list are those of the rows it was joined from |
| Products.ModerationShiftsCounts | src/pages/Products.jsx:124-139 | moderating one product moves it from its old status count to the new one and leaves the total alone |
| Products.ProductTable.UpdateStatus | src/pages/Products.jsx:124-139 | the table becomes the keyed update of the old rows, or stays as it was when the store rejects the update |
| Payments.LoadWithdrawals | src/pages/Payments.jsx:45-53 | a failed query shows nothing; otherwise each row maps one-to-one, in order, to an entry whose creator is the embedded profile |
| Payments.FilterWithdrawals | src/pages/Payments.jsx:62-77 | the status filter, then the search, give the order-preserving subsequence of withdrawals that pass both |
| Payments.FilterOrderIrrelevant | src/pages/Payments.jsx:62-77 | applying the search before the status filter gives the same list |
| Payments.ShowAllIsIdentity | src/pages/Payments.jsx:62-77 | "all" with an empty term shows every withdrawal unchanged |
| Payments.NoCreatorNeverFound | src/pages/Payments.jsx:69-73 | with a non-empty term, a withdrawal without a creator is never shown |
| Payments.StatsBounds | src/pages/Payments.jsx:79-88 | pending plus paid never exceeds the total, and the paid amount is the net of every paid row, a missing net counting 0 |
| Payments.LoadedStats | src/pages/Payments.jsx:79-88 | the counters of a loaded list are those of the rows it was loaded from |
| Payments.SetWithdrawalStatusFrame | src/pages/Payments.jsx:111-116 | only the row with that id changes, and in it only the status and the processed time |
| Payments.OfferedTransition | src/pages/Payments.jsx:258-268 | an action is offered exactly for a pending row, and that action is "paid" |
| Payments.MarkedPaidIsFinal | src/pages/Payments.jsx:258-268 | once a row is marked paid, no further action is offered for it |
| Payments.MarkPaidShiftsStats | src/pages/Payments.jsx:111-126 | marking one pending row paid keeps the total, lowers pending by one, raises paid by one, and raises the paid amount by its net |
| Payments.WithdrawalTable.UpdateWithdrawalStatus | src/pages/Payments.jsx:111-126 | the table becomes the keyed update of the old rows, with the new status and the processing time, or stays as it was when the store rejects the update |
| Payments.WithdrawalTable.MarkAsPaid | src/pages/Payments.jsx:258-268 | pressing "Mark as Paid" updates the row to paid only when it is pending and the store accepts the update |

## Left out

- The data-store queries themselves are inputs, not modelled code: each query's result is a parameter, `None` when `error || !data` holds. `Users.LoadUsers` and `Products.LoadProducts` model the three tiers (foreign-key embed, plain embed, manual join) and how each tier's rows are mapped. The Payments page has a single embedded query, mapped by `Payments.LoadWithdrawals`.
- The `catch` blocks are left out. An exception thrown in `loadUsers` or `loadProducts` would empty the list, and that is not modelled.
- `Dashboard.Last7Days`: a purchase row with a null `created_at` makes `startsWith` throw. The `catch` then skips `setChartData` and the chart stays as it was. The model has no null `created_at`, so it does not capture this.
- The shape of an embedded join response cannot be told from this code, since it could be an object or an array. An embedded creator, owner, payout profile, buyer or product is modelled as an optional record, because the pages read it as one (`user.creator?.status`, `product.owner?.username`).
- `Users.EmbeddedUsers`: the embedded creator has the type of a full creators row, `user_id` included, although the embedded select does not ask for `user_id`. Nothing on the page reads that column from it.
- `Products.EmbeddedProducts`: the embedded owner has the type of the manual join's `id, username` record, although the embedded select asks only for `username`. Nothing on the page reads its id.
- `Dashboard.ComputeStats`: `Purchase.amount` is never null in the model. In the source, `parseFloat(null)` is NaN, and NaN would make the earnings card read 0 after `|| 0`, and likewise that day's chart bar. This is the same NaN the model carries for `net_amount`.
- `.order(...)` and `.limit(...)` of the dashboard's recent-row queries: their results are inputs. `FeedDrawsFromLimits` states what the limits imply for the feed.
- `getTotalUsers` is an exact-count query, so the count is an input of `Dashboard.ComputeStats`.
- Realtime subscriptions and their teardown, `Promise.all`, and overlapping reloads are left out, because they are concurrency.
- The reload after an update is left out. The reloaded page is the join and the filter applied to the updated table.
- `parseFloat`, `toFixed(2)`, the "RM …" and "RM x.xx" amount strings, the chart's bar widths and `maxChartValue` are left out, because they use floating point and formatting. Amounts are integer cents.
- JavaScript `Date` is left out: local `setDate` against UTC `toISOString`, daylight saving, and `toLocaleDateString`. "Today" is an integer UTC day, an instant's day is its milliseconds divided by 86 400 000, and `created_at.startsWith(dateStr)` is equality of those days. A chart point carries its day number, not a label.
- `getTimeAgo` reads the clock on every call, and the model gives all entries one `nowMs`.
- `ActivityFeed.ElapsedSeconds`: the model does not include the NaN that an unparsable `created_at` would give.
- Lower-casing is ASCII only; Unicode case folding is not modelled.
- `Users.CreatorForSpec` and `Products.OwnerForSpec`: a missing id gives no creator or owner. JavaScript would look up the key "null" instead.
- `activities.sort` sorts in place; the model uses an insertion sort on values with the same stable result.
- The Payments page's `getStatusBadge`, the JSX rendering, icons, expand/collapse toggles, and the layout, sidebar, top bar and routing components are left out, because they are presentation only.
