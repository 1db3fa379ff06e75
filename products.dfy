/**
 * The products moderation page: the owner join used when the embedded join is not
 * available, the search and status filter, the counters, the status badge, and the
 * staff's status change.
 */
module Products {
  import opened Wrappers
  import opened Text
  import opened Seqs
  import opened Schema

  /** A product as the page holds it: the row and its `owner` (null when unknown). */
  datatype ProductView = ProductView(row: Product, owner: Option<Owner>)

  // ---------------------------------------------------------------- manual owner join

  /** `productsOnly.map(p => p.owner_id).filter(Boolean)`. */
  function TruthyOwnerIds(ps: seq<Product>): (r: seq<string>)
    ensures forall k :: k in r <==> exists i :: 0 <= i < |ps| && ps[i].ownerId == Some(k) && k != ""
    decreases |ps|
  {
    if ps == [] then []
    else (if Truthy(ps[0].ownerId) then [ps[0].ownerId.value] else []) + TruthyOwnerIds(ps[1..])
  }

  /** `[...new Set(xs)]`: each value once, in the order of first appearance. */
  function Dedup(xs: seq<string>): (r: seq<string>)
    ensures forall k :: k in r <==> k in xs
    ensures forall i, j :: 0 <= i < j < |r| ==> r[i] != r[j]
    decreases |xs|
  {
    if xs == [] then []
    else
      var r := Dedup(xs[..|xs| - 1]);
      assert xs == xs[..|xs| - 1] + [xs[|xs| - 1]];
      if xs[|xs| - 1] in r then r else r + [xs[|xs| - 1]]
  }

  /** `u` occurs in `xs` before the first occurrence of `v`. */
  ghost predicate FirstSeenBefore(xs: seq<string>, u: string, v: string)
  {
    exists a :: 0 <= a < |xs| && xs[a] == u && forall b :: 0 <= b <= a ==> xs[b] != v
  }

  /** A `Set` iterates in insertion order, so the de-duplicated ids come in the order each was first seen. */
  lemma {:induction false} DedupFirstSeenOrder(xs: seq<string>)
    ensures forall i, j :: 0 <= i < j < |Dedup(xs)| ==> FirstSeenBefore(xs, Dedup(xs)[i], Dedup(xs)[j])
    decreases |xs|
  {
    if xs != [] {
      var init := xs[..|xs| - 1];
      var x := xs[|xs| - 1];
      var r := Dedup(init);
      DedupFirstSeenOrder(init);
      forall i, j | 0 <= i < j < |Dedup(xs)| ensures FirstSeenBefore(xs, Dedup(xs)[i], Dedup(xs)[j]) {
        var u := Dedup(xs)[i];
        var v := Dedup(xs)[j];
        assert u == r[i];
        assert u in init;
        var a :| 0 <= a < |init| && init[a] == u;
        if j < |r| {
          assert v == r[j];
          assert FirstSeenBefore(init, u, v);
          var a' :| 0 <= a' < |init| && init[a'] == u && forall b :: 0 <= b <= a' ==> init[b] != v;
          assert xs[a'] == u && forall b :: 0 <= b <= a' ==> xs[b] != v;
        } else {
          assert v == x && x !in init;
          assert xs[a] == u && forall b :: 0 <= b <= a ==> xs[b] != v;
        }
      }
    }
  }

  /** The owner ids the fallback asks the users table for. */
  function OwnerIds(ps: seq<Product>): seq<string>
  {
    Dedup(TruthyOwnerIds(ps))
  }

  /** They are exactly the non-empty owner ids, each once; there are none exactly when no product has one. */
  lemma OwnerIdsSpec(ps: seq<Product>)
    ensures forall k :: k in OwnerIds(ps) <==> exists i :: 0 <= i < |ps| && ps[i].ownerId == Some(k) && k != ""
    ensures forall i, j :: 0 <= i < j < |OwnerIds(ps)| ==> OwnerIds(ps)[i] != OwnerIds(ps)[j]
    ensures |OwnerIds(ps)| > 0 <==> exists i :: 0 <= i < |ps| && Truthy(ps[i].ownerId)
  {
    if exists i :: 0 <= i < |ps| && Truthy(ps[i].ownerId) {
      var i :| 0 <= i < |ps| && Truthy(ps[i].ownerId);
      assert ps[i].ownerId.value in OwnerIds(ps);
    }
    if |OwnerIds(ps)| > 0 {
      var k := OwnerIds(ps)[0];
      assert k in OwnerIds(ps);
      var i :| 0 <= i < |ps| && ps[i].ownerId == Some(k) && k != "";
      assert Truthy(ps[i].ownerId);
    }
  }

  function OwnerKey(o: Owner): string
  {
    o.id
  }

  /** `userMap[owner_id] || null`, where later users rows overwrite earlier ones with the same id. */
  function OwnerFor(usersData: seq<Owner>, ownerId: Option<string>): Option<Owner>
  {
    if ownerId.Some? then LastWithKey(usersData, OwnerKey, ownerId.value) else None
  }

  /** The owner found is a users row with the product's owner id (the last one), and none is found exactly when no row has it. */
  lemma OwnerForSpec(usersData: seq<Owner>, k: string)
    ensures OwnerFor(usersData, Some(k)).None? <==> forall i :: 0 <= i < |usersData| ==> usersData[i].id != k
    ensures OwnerFor(usersData, Some(k)).Some? ==>
              exists j :: 0 <= j < |usersData| && usersData[j] == OwnerFor(usersData, Some(k)).value && usersData[j].id == k
                          && forall i :: j < i < |usersData| ==> usersData[i].id != k
  {
    LastWithKeyIsLast(usersData, OwnerKey, k);
  }

  /** Whether the fallback attaches owners: some owner id to ask for, and the users query succeeded. */
  predicate OwnersJoined(productsOnly: seq<Product>, usersData: Option<seq<Owner>>)
  {
    |OwnerIds(productsOnly)| > 0 && usersData.Some?
  }

  /**
   * The third tier of `loadProducts`: a failed products query shows nothing; otherwise
   * every product, in order, with its owner from the users rows, or with no owner at all
   * when there was no id to ask for or the users query failed.
   */
  method JoinOwners(productsOnly: Option<seq<Product>>, usersData: Option<seq<Owner>>)
    returns (products: seq<ProductView>)
    ensures |products| == |Rows(productsOnly)|
    ensures forall i :: 0 <= i < |products| ==> products[i].row == Rows(productsOnly)[i]
    ensures forall i :: 0 <= i < |products| ==>
              products[i].owner == if OwnersJoined(Rows(productsOnly), usersData)
                                   then OwnerFor(usersData.value, Rows(productsOnly)[i].ownerId) else None
  {
    if productsOnly.None? {
      return [];
    }
    var rows := productsOnly.value;
    var userIds := OwnerIds(rows);
    if |userIds| > 0 && usersData.Some? {
      var userMap := BuildIndex(usersData.value, OwnerKey);
      products := seq(|rows|, i requires 0 <= i < |rows| => ProductView(rows[i], Lookup(userMap, rows[i].ownerId)));
      return;
    }
    products := seq(|rows|, i requires 0 <= i < |rows| => ProductView(rows[i], None));
  }

  // ---------------------------------------------------------------- embedded owner join

  /**
   * A row of an embedded products query: the product's columns and its embedded `users`
   * object, null when the join found none. The embedded select asks only for `username`;
   * the object is typed here as an `Owner`, whose `id` nothing on the page reads.
   */
  datatype EmbeddedProduct = EmbeddedProduct(row: Product, users: Option<Owner>)

  /** The first two tiers' mapping: every product, in order, with `owner: item.users || null`. */
  function EmbeddedProducts(data: seq<EmbeddedProduct>): (products: seq<ProductView>)
    ensures |products| == |data|
    ensures forall i :: 0 <= i < |products| ==> products[i].row == data[i].row && products[i].owner == data[i].users
  {
    seq(|data|, i requires 0 <= i < |data| => ProductView(data[i].row, data[i].users))
  }

  /**
   * `loadProducts`: the embedded query through the named foreign key, then the plain
   * embedded query, then the manual join. The first embedded query that returns rows
   * decides the list; when both fail, the manual join does.
   */
  method LoadProducts(embedded: Option<seq<EmbeddedProduct>>, retried: Option<seq<EmbeddedProduct>>,
                      productsOnly: Option<seq<Product>>, usersData: Option<seq<Owner>>)
    returns (products: seq<ProductView>)
    ensures embedded.Some? ==> products == EmbeddedProducts(embedded.value)
    ensures embedded.None? && retried.Some? ==> products == EmbeddedProducts(retried.value)
    ensures embedded.None? && retried.None? ==>
              |products| == |Rows(productsOnly)|
              && forall i :: 0 <= i < |products| ==>
                   products[i].row == Rows(productsOnly)[i]
                   && products[i].owner == if OwnersJoined(Rows(productsOnly), usersData)
                                           then OwnerFor(usersData.value, Rows(productsOnly)[i].ownerId) else None
  {
    var data := embedded;
    if data.None? {
      data := retried;
    }
    if data.None? {
      products := JoinOwners(productsOnly, usersData);
    } else {
      products := EmbeddedProducts(data.value);
    }
  }

  // ---------------------------------------------------------------- filtering

  /** The search box: title, category or the owner's username. */
  predicate MatchesProductSearch(p: ProductView, term: string)
  {
    FieldMatches(Some(p.row.title), term) || FieldMatches(p.row.category, term)
    || (p.owner.Some? && FieldMatches(p.owner.value.username, term))
  }

  /** The search matches a product when the lower-cased term occurs in its lower-cased title, category or owner's username. */
  lemma ProductSearchSubstring(p: ProductView, term: string)
    ensures MatchesProductSearch(p, term) <==>
              (exists i :: OccursAt(ToLower(p.row.title), ToLower(term), i))
              || (p.row.category.Some? && exists i :: OccursAt(ToLower(p.row.category.value), ToLower(term), i))
              || (p.owner.Some? && p.owner.value.username.Some?
                  && exists i :: OccursAt(ToLower(p.owner.value.username.value), ToLower(term), i))
  {
    ContainsIff(ToLower(p.row.title), ToLower(term));
    if p.row.category.Some? {
      ContainsIff(ToLower(p.row.category.value), ToLower(term));
    }
    if p.owner.Some? && p.owner.value.username.Some? {
      ContainsIff(ToLower(p.owner.value.username.value), ToLower(term));
    }
  }

  predicate SearchStep(p: ProductView, searchTerm: string)
  {
    searchTerm == "" || MatchesProductSearch(p, searchTerm)
  }

  predicate StatusStep(p: ProductView, statusFilter: string)
  {
    statusFilter == "all" || p.row.status == statusFilter
  }

  predicate Shown(p: ProductView, searchTerm: string, statusFilter: string)
  {
    SearchStep(p, searchTerm) && StatusStep(p, statusFilter)
  }

  function SearchTest(searchTerm: string): ProductView -> bool
  {
    p => SearchStep(p, searchTerm)
  }

  function StatusTest(statusFilter: string): ProductView -> bool
  {
    p => StatusStep(p, statusFilter)
  }

  function ShownTest(searchTerm: string, statusFilter: string): ProductView -> bool
  {
    p => Shown(p, searchTerm, statusFilter)
  }

  /** `filterProducts`: the search, then the status filter, over a reassigned copy. */
  method FilterProducts(products: seq<ProductView>, searchTerm: string, statusFilter: string)
    returns (filtered: seq<ProductView>)
    ensures filtered == Filter(products, ShownTest(searchTerm, statusFilter))
    ensures IsSubsequence(filtered, products)
  {
    filtered := products;
    if searchTerm != "" {
      var bySearch := p => MatchesProductSearch(p, searchTerm);
      filtered := Filter(filtered, bySearch);
      FilterExt(products, bySearch, SearchTest(searchTerm));
    } else {
      FilterAllPass(products, SearchTest(searchTerm));
    }
    ghost var afterSearch := filtered;
    if statusFilter != "all" {
      var byStatus := (p: ProductView) => p.row.status == statusFilter;
      filtered := Filter(filtered, byStatus);
      FilterExt(afterSearch, byStatus, StatusTest(statusFilter));
    } else {
      FilterAllPass(afterSearch, StatusTest(statusFilter));
    }
    FilterFilter(products, SearchTest(searchTerm), StatusTest(statusFilter), ShownTest(searchTerm, statusFilter));
    FilterIsSubsequence(products, ShownTest(searchTerm, statusFilter));
  }

  /** An empty term with "all" shows every product. */
  lemma ShowAllIsIdentity(products: seq<ProductView>)
    ensures Filter(products, ShownTest("", "all")) == products
  {
    FilterAllPass(products, ShownTest("", "all"));
  }

  /** A product is shown exactly when it passes the search and, unless the filter is "all", has exactly that status. */
  lemma ShownMembership(products: seq<ProductView>, searchTerm: string, statusFilter: string, p: ProductView)
    ensures p in Filter(products, ShownTest(searchTerm, statusFilter)) <==>
              p in products && SearchStep(p, searchTerm) && (statusFilter == "all" || p.row.status == statusFilter)
  {
    FilterMembership(products, ShownTest(searchTerm, statusFilter), p);
  }

  // ---------------------------------------------------------------- counters and badge

  datatype ProductStats = ProductStats(total: nat, approved: nat, review: nat, rejected: nat)

  function HasStatus(v: string): ProductView -> bool
  {
    (p: ProductView) => p.row.status == v
  }

  /** `stats`. */
  function ComputeStats(products: seq<ProductView>): ProductStats
  {
    ProductStats(|products|, |Filter(products, HasStatus("approved"))|,
                 |Filter(products, HasStatus("review"))|, |Filter(products, HasStatus("rejected"))|)
  }

  /** The three moderation counters never add up to more than the total. */
  lemma StatsBound(products: seq<ProductView>)
    ensures ComputeStats(products).approved + ComputeStats(products).review + ComputeStats(products).rejected
         <= ComputeStats(products).total
  {
    var approvedOrReview := p => HasStatus("approved")(p) || HasStatus("review")(p);
    var anyOfThree := p => approvedOrReview(p) || HasStatus("rejected")(p);
    var any := (p: ProductView) => true;
    FilterDisjoint(products, HasStatus("approved"), HasStatus("review"), approvedOrReview);
    FilterDisjoint(products, approvedOrReview, HasStatus("rejected"), anyOfThree);
    FilterMonotone(products, anyOfThree, any);
    FilterAllPass(products, any);
  }

  /** `getStatusBadge`: every status other than "approved" and "rejected" reads "In Review". */
  function StatusBadge(status: string): (badge: string)
    ensures status == "approved" <==> badge == "Approved"
    ensures status == "rejected" <==> badge == "Rejected"
    ensures status != "approved" && status != "rejected" <==> badge == "In Review"
  {
    if status == "approved" then "Approved" else if status == "rejected" then "Rejected" else "In Review"
  }

  // ---------------------------------------------------------------- the staff's status change

  function IdIs(id: string): Product -> bool
  {
    (p: Product) => p.id == id
  }

  function StatusTo(newStatus: string): Product -> Product
  {
    (p: Product) => p.(status := newStatus)
  }

  /** `update({ status }).eq("id", productId)` on the products table. */
  function SetProductStatus(rows: seq<Product>, id: string, newStatus: string): seq<Product>
  {
    UpdateWhere(rows, IdIs(id), StatusTo(newStatus))
  }

  /** Only the row with that id changes, and in it only `status`. */
  lemma SetProductStatusFrame(rows: seq<Product>, id: string, newStatus: string)
    ensures |SetProductStatus(rows, id, newStatus)| == |rows|
    ensures forall i :: 0 <= i < |rows| && rows[i].id != id ==> SetProductStatus(rows, id, newStatus)[i] == rows[i]
    ensures forall i :: 0 <= i < |rows| && rows[i].id == id ==> SetProductStatus(rows, id, newStatus)[i] == rows[i].(status := newStatus)
  {
  }

  function RowHasStatus(v: string): Product -> bool
  {
    (p: Product) => p.status == v
  }

  /** The counters of a list (such as a reload) decorating the rows are those of the rows. */
  lemma StatsOfRows(products: seq<ProductView>, rows: seq<Product>, v: string)
    requires |products| == |rows| && forall i :: 0 <= i < |rows| ==> products[i].row == rows[i]
    ensures |Filter(products, HasStatus(v))| == |Filter(rows, RowHasStatus(v))|
  {
    FilterProject(products, rows, HasStatus(v), RowHasStatus(v));
  }

  /** Moving the one product with that id to a new status moves it between the counters and leaves the rest. */
  lemma ModerationShiftsCounts(rows: seq<Product>, id: string, j: int, newStatus: string, v: string)
    requires 0 <= j < |rows| && rows[j].id == id
    requires forall i :: 0 <= i < |rows| && i != j ==> rows[i].id != id
    ensures |Filter(SetProductStatus(rows, id, newStatus), RowHasStatus(v))|
         == |Filter(rows, RowHasStatus(v))| - (if rows[j].status == v then 1 else 0) + (if newStatus == v then 1 else 0)
  {
    UpdateOneCount(rows, IdIs(id), StatusTo(newStatus), RowHasStatus(v), j);
  }

  /** The products table of the data store, as the page's updates see it. */
  class ProductTable {
    var rows: seq<Product>

    constructor (initial: seq<Product>)
      ensures rows == initial
    {
      rows := initial;
    }

    /** `updateStatus`: the row with that id gets the new status; a failed update changes nothing. */
    method UpdateStatus(productId: string, newStatus: string, failed: bool)
      modifies this
      ensures rows == if failed then old(rows) else SetProductStatus(old(rows), productId, newStatus)
    {
      if !failed {
        rows := SetProductStatus(rows, productId, newStatus);
      }
    }
  }
}
