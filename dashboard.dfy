/**
 * The dashboard's stat cards and its seven-day revenue chart, computed from the rows
 * the data store returns for its `.eq` filtered queries. A query result is `None`
 * when the query failed, which the page reads as no rows (`data?.… || 0`).
 */
module Dashboard {
  import opened Wrappers
  import opened Seqs
  import opened Schema
  import Payments

  // ---------------------------------------------------------------- the queries' filters

  predicate IsPaidPurchase(p: Purchase)
  {
    p.status == "paid"
  }

  predicate IsActiveProduct(p: Product)
  {
    p.isActive
  }

  predicate IsApproved(p: Product)
  {
    p.status == "approved"
  }

  predicate IsActiveApproved(p: Product)
  {
    p.isActive && p.status == "approved"
  }

  /** What a query with an `.eq` filter returns from a table: the matching rows, in order, or the query's failure. */
  function Where<T(!new)>(table: Option<seq<T>>, p: T -> bool): (result: Option<seq<T>>)
    ensures result.None? <==> table.None?
    ensures result.Some? ==> IsSubsequence(result.value, table.value)
    ensures result.Some? ==> forall x :: x in result.value <==> x in table.value && p(x)
  {
    if table.None? then None
    else
      FilterIsSubsequence(table.value, p);
      FilterMembers(table.value, p);
      Some(Filter(table.value, p))
  }

  // ---------------------------------------------------------------- JavaScript numbers in a reduce

  /** The value of a running `reduce`: `parseFloat(null)` is NaN, and NaN absorbs every later addition. */
  datatype Num = NaN | Num(value: int)

  function AddNet(acc: Num, net: Option<int>): Num
  {
    if acc.NaN? || net.None? then NaN else Num(acc.value + net.value)
  }

  /** `ws.reduce((sum, w) => sum + parseFloat(w.net_amount), 0)`, folding from the left. */
  function ReduceNet(ws: seq<Withdrawal>, acc: Num): Num
    decreases |ws|
  {
    if ws == [] then acc else ReduceNet(ws[1..], AddNet(acc, ws[0].netAmount))
  }

  /** `x || 0` on a number: NaN and 0 both become 0. */
  function OrZero(n: Num): int
  {
    if n.NaN? then 0 else n.value
  }

  predicate HasNet(w: Withdrawal)
  {
    w.netAmount.Some?
  }

  function NetOrZero(w: Withdrawal): int
  {
    if w.netAmount.Some? then w.netAmount.value else 0
  }

  /** The fold is NaN exactly when some row has no net amount, and otherwise the sum of the nets. */
  lemma {:induction false} ReduceNetSpec(ws: seq<Withdrawal>, start: int)
    ensures ReduceNet(ws, Num(start)).NaN? <==> exists i :: 0 <= i < |ws| && !HasNet(ws[i])
    ensures ReduceNet(ws, Num(start)).Num? ==> ReduceNet(ws, Num(start)).value == start + Sum(ws, NetOrZero)
    decreases |ws|
  {
    if ws != [] {
      if ws[0].netAmount.None? {
        ReduceNetOfNaN(ws[1..]);
      } else {
        ReduceNetSpec(ws[1..], start + ws[0].netAmount.value);
        assert forall i :: 0 < i < |ws| ==> ws[i] == ws[1..][i - 1];
        if exists i :: 0 <= i < |ws| && !HasNet(ws[i]) {
          var i :| 0 <= i < |ws| && !HasNet(ws[i]);
          assert !HasNet(ws[1..][i - 1]);
        }
      }
    }
  }

  lemma {:induction false} ReduceNetOfNaN(ws: seq<Withdrawal>)
    ensures ReduceNet(ws, NaN) == NaN
    decreases |ws|
  {
    if ws != [] {
      ReduceNetOfNaN(ws[1..]);
    }
  }

  // ---------------------------------------------------------------- the stat cards

  function Amount(p: Purchase): int
  {
    p.amount
  }

  datatype DashboardStats = DashboardStats(
    totalRevenue: int,
    creatorEarnings: int,
    totalWithdrawn: int,
    companyBalance: int,
    productsSold: nat,
    totalUsers: nat,
    activeProducts: nat)

  /**
   * The stats of `loadDashboardData` from the purchases, products and withdrawals tables.
   * `totalUsers` is the exact count the data store reports, which the page fetches separately.
   */
  function ComputeStats(purchases: Option<seq<Purchase>>, products: Option<seq<Product>>,
                        withdrawals: Option<seq<Withdrawal>>, totalUsers: nat): DashboardStats
  {
    var paidPurchases := Where(purchases, IsPaidPurchase);
    var activeProducts := Where(products, IsActiveProduct);
    var paidWithdrawals := Where(withdrawals, Payments.RowPaid);
    var productsSold := |Rows(paidPurchases)|;
    var creatorEarnings := Sum(Rows(paidPurchases), Amount);
    var totalRevenue := if paidWithdrawals.None? then 0 else OrZero(ReduceNet(paidWithdrawals.value, Num(0)));
    DashboardStats(
      totalRevenue,
      creatorEarnings,
      totalRevenue,
      creatorEarnings - totalRevenue,
      productsSold,
      totalUsers,
      |Filter(Rows(activeProducts), IsApproved)|)
  }

  /** Whether every paid withdrawal carries its net amount. */
  predicate PaidNetsPresent(ws: seq<Withdrawal>)
  {
    forall i :: 0 <= i < |ws| && ws[i].status == "paid" ==> ws[i].netAmount.Some?
  }

  function PaidAmount(p: Purchase): int
  {
    if p.status == "paid" then p.amount else 0
  }

  /** Products sold counts the paid purchases, and is 0 exactly when there is none (or the query failed). */
  lemma ProductsSoldCountsPaid(purchases: Option<seq<Purchase>>, products: Option<seq<Product>>,
                               withdrawals: Option<seq<Withdrawal>>, totalUsers: nat)
    ensures ComputeStats(purchases, products, withdrawals, totalUsers).productsSold
         == |Filter(Rows(purchases), IsPaidPurchase)|
    ensures ComputeStats(purchases, products, withdrawals, totalUsers).productsSold == 0
        <==> forall i :: 0 <= i < |Rows(purchases)| ==> Rows(purchases)[i].status != "paid"
  {
    var rows := Rows(purchases);
    if exists i :: 0 <= i < |rows| && rows[i].status == "paid" {
      var i :| 0 <= i < |rows| && rows[i].status == "paid";
      FilterMembership(rows, IsPaidPurchase, rows[i]);
    } else {
      FilterNonePass(rows, IsPaidPurchase);
    }
  }

  /**
   * Creator earnings is the sum of the paid purchase amounts. Total revenue is the sum
   * of the paid withdrawals' net amounts when each of them has one, and 0 as soon as
   * one of them has none, since the sum becomes NaN and `|| 0` turns it into 0.
   */
  lemma EarningsAndRevenue(purchases: Option<seq<Purchase>>, products: Option<seq<Product>>,
                           withdrawals: Option<seq<Withdrawal>>, totalUsers: nat)
    ensures ComputeStats(purchases, products, withdrawals, totalUsers).creatorEarnings
         == Sum(Rows(purchases), PaidAmount)
    ensures ComputeStats(purchases, products, withdrawals, totalUsers).totalRevenue
         == if PaidNetsPresent(Rows(withdrawals)) then Sum(Rows(withdrawals), Payments.RowPaidNet) else 0
  {
    SumFilter(Rows(purchases), IsPaidPurchase, Amount, PaidAmount);
    var ws := Rows(withdrawals);
    var paid := Filter(ws, Payments.RowPaid);
    ReduceNetSpec(paid, 0);
    PaidNetsPresentInFilter(ws);
    SumFilter(ws, Payments.RowPaid, NetOrZero, Payments.RowPaidNet);
  }

  /** Every paid withdrawal has a net amount exactly when every row the paid-withdrawals query returns has one. */
  lemma PaidNetsPresentInFilter(ws: seq<Withdrawal>)
    ensures PaidNetsPresent(ws) <==> !exists i :: 0 <= i < |Filter(ws, Payments.RowPaid)| && !HasNet(Filter(ws, Payments.RowPaid)[i])
  {
    var paid := Filter(ws, Payments.RowPaid);
    if PaidNetsPresent(ws) {
      forall i | 0 <= i < |paid| ensures HasNet(paid[i]) {
        FilterMembership(ws, Payments.RowPaid, paid[i]);
      }
    } else {
      var i :| 0 <= i < |ws| && ws[i].status == "paid" && ws[i].netAmount.None?;
      FilterMembership(ws, Payments.RowPaid, ws[i]);
      var k :| 0 <= k < |paid| && paid[k] == ws[i];
      assert !HasNet(paid[k]);
    }
  }

  /** With no rows (or failed queries) every money card and count reads 0. */
  lemma EmptyTablesShowZero(totalUsers: nat)
    ensures ComputeStats(None, None, None, totalUsers) == DashboardStats(0, 0, 0, 0, 0, totalUsers, 0)
    ensures ComputeStats(Some([]), Some([]), Some([]), totalUsers) == DashboardStats(0, 0, 0, 0, 0, totalUsers, 0)
  {
  }

  /** The balance card is earnings minus the paid-out total, and the pending-withdrawals card shows that same figure. */
  lemma BalanceIdentity(purchases: Option<seq<Purchase>>, products: Option<seq<Product>>,
                        withdrawals: Option<seq<Withdrawal>>, totalUsers: nat)
    ensures var st := ComputeStats(purchases, products, withdrawals, totalUsers);
            st.totalWithdrawn == st.totalRevenue
            && st.companyBalance == st.creatorEarnings - st.totalRevenue
            && PendingWithdrawals(st) == st.companyBalance
  {
  }

  /** The "Pending Withdrawals" card. */
  function PendingWithdrawals(st: DashboardStats): int
  {
    st.creatorEarnings - st.totalWithdrawn
  }

  /** The balance is not clamped: a paid-out withdrawal without matching sales makes it negative. */
  lemma BalanceCanBeNegative()
    ensures ComputeStats(Some([]), Some([]),
                         Some([Withdrawal("w1", "c1", 510, 10, Some(500), "paid", 0, Some(1), None)]), 0).companyBalance
         == -500
  {
    var w := Withdrawal("w1", "c1", 510, 10, Some(500), "paid", 0, Some(1), None);
    assert Filter([w], Payments.RowPaid) == [w];
  }

  /** Active products counts the active rows that are approved, so it never exceeds the number of active rows. */
  lemma ActiveProductsBound(purchases: Option<seq<Purchase>>, products: Option<seq<Product>>,
                            withdrawals: Option<seq<Withdrawal>>, totalUsers: nat)
    ensures ComputeStats(purchases, products, withdrawals, totalUsers).activeProducts
         == |Filter(Rows(products), IsActiveApproved)|
    ensures ComputeStats(purchases, products, withdrawals, totalUsers).activeProducts
         <= |Filter(Rows(products), IsActiveProduct)|
  {
    FilterFilter(Rows(products), IsActiveProduct, IsApproved, IsActiveApproved);
  }

  /** A new paid purchase adds one sale and its amount to the earnings and to the balance. */
  lemma PaidPurchaseRaisesBalance(purchases: seq<Purchase>, p: Purchase, products: Option<seq<Product>>,
                                  withdrawals: Option<seq<Withdrawal>>, totalUsers: nat)
    requires p.status == "paid"
    ensures var before := ComputeStats(Some(purchases), products, withdrawals, totalUsers);
            var after := ComputeStats(Some(purchases + [p]), products, withdrawals, totalUsers);
            after.productsSold == before.productsSold + 1
            && after.creatorEarnings == before.creatorEarnings + p.amount
            && after.companyBalance == before.companyBalance + p.amount
  {
    FilterAppend(purchases, [p], IsPaidPurchase);
    assert Filter([p], IsPaidPurchase) == [p];
    SumAppend(Filter(purchases, IsPaidPurchase), [p], Amount);
  }

  /**
   * Marking a pending withdrawal paid (with its net amount set) moves that net from the
   * balance to the revenue card, provided every paid withdrawal already had a net amount.
   */
  lemma MarkPaidMovesNet(purchases: Option<seq<Purchase>>, products: Option<seq<Product>>,
                         rows: seq<Withdrawal>, id: string, j: int, at: int, totalUsers: nat)
    requires Payments.KeyedAt(rows, id, j)
    requires rows[j].status == "pending" && rows[j].netAmount.Some?
    requires PaidNetsPresent(rows)
    ensures var before := ComputeStats(purchases, products, Some(rows), totalUsers);
            var after := ComputeStats(purchases, products, Some(Payments.SetWithdrawalStatus(rows, id, "paid", at)), totalUsers);
            after.totalRevenue == before.totalRevenue + rows[j].netAmount.value
            && after.companyBalance == before.companyBalance - rows[j].netAmount.value
  {
    var updated := Payments.SetWithdrawalStatus(rows, id, "paid", at);
    Payments.SetWithdrawalStatusFrame(rows, id, "paid", at);
    assert PaidNetsPresent(updated) by {
      forall i | 0 <= i < |updated| && updated[i].status == "paid" ensures updated[i].netAmount.Some? {
        if rows[i].id == id {
          assert i == j;
        }
      }
    }
    EarningsAndRevenue(purchases, products, Some(rows), totalUsers);
    EarningsAndRevenue(purchases, products, Some(updated), totalUsers);
    UpdateOneSum(rows, Payments.IdIs(id), Payments.Stamp("paid", at), Payments.RowPaidNet, j);
  }

  /**
   * When every paid withdrawal has its net amount, the dashboard's revenue card agrees
   * with the paid total on the payments page; otherwise the card reads 0 whatever the
   * payments page shows.
   */
  lemma RevenueAgreesWithPayments(purchases: Option<seq<Purchase>>, products: Option<seq<Product>>,
                                  rows: seq<Withdrawal>, totalUsers: nat)
    ensures PaidNetsPresent(rows) ==>
              (ComputeStats(purchases, products, Some(rows), totalUsers).totalRevenue
               == Payments.CalculateStats(Payments.LoadWithdrawals(Some(rows))).totalAmount)
    ensures !PaidNetsPresent(rows) ==> ComputeStats(purchases, products, Some(rows), totalUsers).totalRevenue == 0
  {
    EarningsAndRevenue(purchases, products, Some(rows), totalUsers);
    Payments.LoadedStats(rows);
  }

  // ---------------------------------------------------------------- the seven-day chart

  const DayMs := 86_400_000

  /** The calendar day (days since the epoch, UTC) an instant falls on: the date part of `toISOString`. */
  function DayOf(ms: int): int
  {
    ms / DayMs
  }

  function OnDay(d: int): Purchase -> bool
  {
    (p: Purchase) => DayOf(p.createdAt) == d
  }

  /** The paid purchases created on day `d`, summed: the `startsWith(dateStr)` filter and its reduce. */
  function DayRevenue(paid: seq<Purchase>, d: int): int
  {
    Sum(Filter(paid, OnDay(d)), Amount)
  }

  /** A bar of the chart: its day and that day's revenue. */
  datatype ChartPoint = ChartPoint(day: int, revenue: int)

  function Revenue(pt: ChartPoint): int
  {
    pt.revenue
  }

  /**
   * The chart loop over the paid-purchases query, counting `i` down from 6 to 0 and
   * pushing the point for `today - i`: seven points for consecutive days ending today,
   * oldest first, each with the revenue of the paid purchases created that day.
   */
  method Last7Days(purchases: Option<seq<Purchase>>, today: int) returns (last7Days: seq<ChartPoint>)
    ensures |last7Days| == 7
    ensures forall k :: 0 <= k < 7 ==>
              last7Days[k] == ChartPoint(today - 6 + k, DayRevenue(Filter(Rows(purchases), IsPaidPurchase), today - 6 + k))
  {
    var paidPurchases := Where(purchases, IsPaidPurchase);
    ghost var paid := Filter(Rows(purchases), IsPaidPurchase);
    assert Rows(paidPurchases) == paid;
    last7Days := [];
    var i := 6;
    while i >= 0
      invariant -1 <= i <= 6
      invariant |last7Days| == 6 - i
      invariant forall k :: 0 <= k < |last7Days| ==>
                  last7Days[k] == ChartPoint(today - 6 + k, DayRevenue(paid, today - 6 + k))
      decreases i
    {
      var date := today - i;
      var dayRevenue := if paidPurchases.None? then 0 else Sum(Filter(paidPurchases.value, OnDay(date)), Amount);
      last7Days := last7Days + [ChartPoint(date, dayRevenue)];
      i := i - 1;
    }
  }

  /** The last point is today, and each point is the day after the one before it. */
  lemma ChartDaysConsecutive(series: seq<ChartPoint>, purchases: Option<seq<Purchase>>, today: int)
    requires |series| == 7
    requires forall k :: 0 <= k < 7 ==>
               series[k] == ChartPoint(today - 6 + k, DayRevenue(Filter(Rows(purchases), IsPaidPurchase), today - 6 + k))
    ensures series[6].day == today
    ensures forall k :: 0 <= k < 6 ==> series[k + 1].day == series[k].day + 1
  {
  }

  /** A day without paid purchases has revenue 0. */
  lemma QuietDayIsZero(paid: seq<Purchase>, d: int)
    requires forall i :: 0 <= i < |paid| ==> DayOf(paid[i].createdAt) != d
    ensures DayRevenue(paid, d) == 0
  {
    FilterNonePass(paid, OnDay(d));
  }

  function InWindow(first: int, n: nat): Purchase -> bool
  {
    (p: Purchase) => first <= DayOf(p.createdAt) < first + n
  }

  /** The points of the `n` days starting at `first`, summed. */
  function WindowRevenue(paid: seq<Purchase>, first: int, n: nat): int
  {
    if n == 0 then 0 else WindowRevenue(paid, first, n - 1) + DayRevenue(paid, first + n - 1)
  }

  /** The per-day sums of a window add up to the revenue of the purchases created in that window. */
  lemma {:induction false} WindowRevenueIsFilter(paid: seq<Purchase>, first: int, n: nat)
    ensures WindowRevenue(paid, first, n) == Sum(Filter(paid, InWindow(first, n)), Amount)
  {
    if n == 0 {
      FilterNonePass(paid, InWindow(first, 0));
    } else {
      WindowRevenueIsFilter(paid, first, n - 1);
      SumFilterDisjoint(paid, InWindow(first, n - 1), OnDay(first + n - 1), InWindow(first, n), Amount);
    }
  }

  lemma {:induction false} SeriesSum(series: seq<ChartPoint>, paid: seq<Purchase>, first: int)
    requires forall k :: 0 <= k < |series| ==> series[k] == ChartPoint(first + k, DayRevenue(paid, first + k))
    ensures Sum(series, Revenue) == WindowRevenue(paid, first, |series|)
    decreases |series|
  {
    if series != [] {
      var n := |series|;
      assert series == series[..n - 1] + [series[n - 1]];
      SumAppend(series[..n - 1], [series[n - 1]], Revenue);
      SeriesSum(series[..n - 1], paid, first);
    }
  }

  /** The seven bars together show exactly the paid revenue of the last seven days, today included. */
  lemma ChartTotal(series: seq<ChartPoint>, purchases: Option<seq<Purchase>>, today: int)
    requires |series| == 7
    requires forall k :: 0 <= k < 7 ==>
               series[k] == ChartPoint(today - 6 + k, DayRevenue(Filter(Rows(purchases), IsPaidPurchase), today - 6 + k))
    ensures Sum(series, Revenue) == Sum(Filter(Filter(Rows(purchases), IsPaidPurchase), InWindow(today - 6, 7)), Amount)
  {
    var paid := Filter(Rows(purchases), IsPaidPurchase);
    SeriesSum(series, paid, today - 6);
    WindowRevenueIsFilter(paid, today - 6, 7);
  }
}
