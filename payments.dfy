/**
 * The withdrawals page: the loaded list, its search and status filter, the
 * counters above the list, and the one staff action, "Mark as Paid".
 */
module Payments {
  import opened Wrappers
  import opened Text
  import opened Seqs
  import opened Schema

  /** A withdrawal as the page holds it: the row and its `creator`. */
  datatype WithdrawalView = WithdrawalView(row: Withdrawal, creator: Option<PayoutProfile>)

  /** Loading: a failed query leaves the page empty; otherwise one view per row, in order. */
  function LoadWithdrawals(result: Option<seq<Withdrawal>>): (ws: seq<WithdrawalView>)
    ensures result.None? ==> ws == []
    ensures result.Some? ==> |ws| == |result.value|
    ensures result.Some? ==> forall i :: 0 <= i < |ws| ==>
              ws[i].row == result.value[i] && ws[i].creator == result.value[i].creators
  {
    if result.None? then []
    else seq(|result.value|, i requires 0 <= i < |result.value| =>
           WithdrawalView(result.value[i], result.value[i].creators))
  }

  // ---------------------------------------------------------------- filtering

  /** The search box: the creator's legal name or recipient name. */
  predicate MatchesPayee(w: WithdrawalView, term: string)
  {
    w.creator.Some? && (FieldMatches(w.creator.value.fullName, term) || FieldMatches(w.creator.value.recipientName, term))
  }

  predicate StatusStep(w: WithdrawalView, statusFilter: string)
  {
    statusFilter == "all" || w.row.status == statusFilter
  }

  predicate SearchStep(w: WithdrawalView, searchTerm: string)
  {
    searchTerm == "" || MatchesPayee(w, searchTerm)
  }

  /** The rows the page shows: both tests, ANDed. */
  predicate Shown(w: WithdrawalView, statusFilter: string, searchTerm: string)
  {
    StatusStep(w, statusFilter) && SearchStep(w, searchTerm)
  }

  function StatusTest(statusFilter: string): WithdrawalView -> bool
  {
    w => StatusStep(w, statusFilter)
  }

  function SearchTest(searchTerm: string): WithdrawalView -> bool
  {
    w => SearchStep(w, searchTerm)
  }

  function ShownTest(statusFilter: string, searchTerm: string): WithdrawalView -> bool
  {
    w => Shown(w, statusFilter, searchTerm)
  }

  /** `filterWithdrawals`: the status filter, then the search, over a reassigned copy. */
  method FilterWithdrawals(withdrawals: seq<WithdrawalView>, statusFilter: string, searchTerm: string)
    returns (filtered: seq<WithdrawalView>)
    ensures filtered == Filter(withdrawals, ShownTest(statusFilter, searchTerm))
    ensures IsSubsequence(filtered, withdrawals)
  {
    filtered := withdrawals;
    if statusFilter != "all" {
      var byStatus := (w: WithdrawalView) => w.row.status == statusFilter;
      filtered := Filter(filtered, byStatus);
      FilterExt(withdrawals, byStatus, StatusTest(statusFilter));
    } else {
      FilterAllPass(withdrawals, StatusTest(statusFilter));
    }
    ghost var afterStatus := filtered;
    if searchTerm != "" {
      var byPayee := w => MatchesPayee(w, searchTerm);
      filtered := Filter(filtered, byPayee);
      FilterExt(afterStatus, byPayee, SearchTest(searchTerm));
    } else {
      FilterAllPass(afterStatus, SearchTest(searchTerm));
    }
    FilterFilter(withdrawals, StatusTest(statusFilter), SearchTest(searchTerm), ShownTest(statusFilter, searchTerm));
    FilterIsSubsequence(withdrawals, ShownTest(statusFilter, searchTerm));
  }

  /** The two tests commute: searching first and filtering by status second shows the same rows. */
  lemma FilterOrderIrrelevant(ws: seq<WithdrawalView>, statusFilter: string, searchTerm: string)
    ensures Filter(Filter(ws, SearchTest(searchTerm)), StatusTest(statusFilter))
         == Filter(ws, ShownTest(statusFilter, searchTerm))
  {
    FilterFilter(ws, SearchTest(searchTerm), StatusTest(statusFilter), ShownTest(statusFilter, searchTerm));
  }

  /** With "all" and an empty term the list is shown unchanged. */
  lemma ShowAllIsIdentity(ws: seq<WithdrawalView>)
    ensures Filter(ws, ShownTest("all", "")) == ws
  {
    FilterAllPass(ws, ShownTest("all", ""));
  }

  /** A row without a creator never matches a non-empty term, whatever the status filter. */
  lemma NoCreatorNeverFound(ws: seq<WithdrawalView>, statusFilter: string, searchTerm: string)
    requires searchTerm != ""
    ensures forall w :: w in Filter(ws, ShownTest(statusFilter, searchTerm)) ==> w.creator.Some?
  {
    forall w | w in Filter(ws, ShownTest(statusFilter, searchTerm)) ensures w.creator.Some? {
      FilterMembership(ws, ShownTest(statusFilter, searchTerm), w);
    }
  }

  // ---------------------------------------------------------------- counters

  datatype WithdrawalStats = WithdrawalStats(total: nat, pending: nat, paid: nat, totalAmount: int)

  predicate IsPending(w: WithdrawalView)
  {
    w.row.status == "pending"
  }

  predicate IsPaid(w: WithdrawalView)
  {
    w.row.status == "paid"
  }

  /** `w.net_amount || 0`. */
  function NetOrZero(w: WithdrawalView): int
  {
    if w.row.netAmount.Some? then w.row.netAmount.value else 0
  }

  /** The contribution of a row to the paid amount. */
  function PaidNet(w: WithdrawalView): int
  {
    if IsPaid(w) then NetOrZero(w) else 0
  }

  /** `calculateStats`. */
  function CalculateStats(ws: seq<WithdrawalView>): WithdrawalStats
  {
    WithdrawalStats(|ws|, |Filter(ws, IsPending)|, |Filter(ws, IsPaid)|, Sum(Filter(ws, IsPaid), NetOrZero))
  }

  /** Pending and paid never exceed the total, and the paid amount is the net of every paid row, a missing net counting 0. */
  lemma StatsBounds(ws: seq<WithdrawalView>)
    ensures CalculateStats(ws).pending + CalculateStats(ws).paid <= CalculateStats(ws).total
    ensures CalculateStats(ws).totalAmount == Sum(ws, PaidNet)
  {
    var either := x => IsPending(x) || IsPaid(x);
    var any := (x: WithdrawalView) => true;
    FilterDisjoint(ws, IsPending, IsPaid, either);
    FilterMonotone(ws, either, any);
    FilterAllPass(ws, any);
    SumFilter(ws, IsPaid, NetOrZero, PaidNet);
  }

  // ---------------------------------------------------------------- the staff action

  function IdIs(id: string): Withdrawal -> bool
  {
    (w: Withdrawal) => w.id == id
  }

  function Stamp(newStatus: string, at: int): Withdrawal -> Withdrawal
  {
    (w: Withdrawal) => w.(status := newStatus, processedAt := Some(at))
  }

  /** `update({ status, processed_at }).eq("id", id)` on the withdrawals table. */
  function SetWithdrawalStatus(rows: seq<Withdrawal>, id: string, newStatus: string, at: int): seq<Withdrawal>
  {
    UpdateWhere(rows, IdIs(id), Stamp(newStatus, at))
  }

  /** Only the rows with that id change, and in them only `status` and `processed_at`. */
  lemma SetWithdrawalStatusFrame(rows: seq<Withdrawal>, id: string, newStatus: string, at: int)
    ensures |SetWithdrawalStatus(rows, id, newStatus, at)| == |rows|
    ensures forall i :: 0 <= i < |rows| && rows[i].id != id ==> SetWithdrawalStatus(rows, id, newStatus, at)[i] == rows[i]
    ensures forall i :: 0 <= i < |rows| && rows[i].id == id ==>
              SetWithdrawalStatus(rows, id, newStatus, at)[i] == rows[i].(status := newStatus, processedAt := Some(at))
  {
  }

  /** The action a row offers: "Mark as Paid" (to "paid") while pending, nothing otherwise. */
  function OfferedTransition(status: string): (r: Option<string>)
    ensures r.Some? <==> status == "pending"
    ensures r.Some? ==> r.value == "paid"
  {
    if status == "pending" then Some("paid") else None
  }

  /** Once marked paid a row offers nothing, so the only transition the page exposes is pending to paid, once. */
  lemma MarkedPaidIsFinal(w: Withdrawal, at: int)
    requires OfferedTransition(w.status).Some?
    ensures OfferedTransition(w.(status := OfferedTransition(w.status).value, processedAt := Some(at)).status).None?
  {
  }

  /** Whether the rows have unique ids and `j` is the one with `id`. */
  predicate KeyedAt(rows: seq<Withdrawal>, id: string, j: int)
  {
    0 <= j < |rows| && rows[j].id == id && forall i :: 0 <= i < |rows| && i != j ==> rows[i].id != id
  }

  predicate RowPending(r: Withdrawal)
  {
    r.status == "pending"
  }

  predicate RowPaid(r: Withdrawal)
  {
    r.status == "paid"
  }

  function RowPaidNet(r: Withdrawal): int
  {
    if r.status == "paid" then (if r.netAmount.Some? then r.netAmount.value else 0) else 0
  }

  /** The counters of a loaded list are those of the rows it was loaded from. */
  lemma LoadedStats(rows: seq<Withdrawal>)
    ensures CalculateStats(LoadWithdrawals(Some(rows))).total == |rows|
    ensures CalculateStats(LoadWithdrawals(Some(rows))).pending == |Filter(rows, RowPending)|
    ensures CalculateStats(LoadWithdrawals(Some(rows))).paid == |Filter(rows, RowPaid)|
    ensures CalculateStats(LoadWithdrawals(Some(rows))).totalAmount == Sum(rows, RowPaidNet)
  {
    var ws := LoadWithdrawals(Some(rows));
    FilterProject(ws, rows, IsPending, RowPending);
    FilterProject(ws, rows, IsPaid, RowPaid);
    StatsBounds(ws);
    SumProject(ws, rows, PaidNet, RowPaidNet);
  }

  /** Marking the one pending row with that id paid moves it from the pending to the paid counter and adds its net to the paid amount. */
  lemma MarkPaidShiftsStats(rows: seq<Withdrawal>, id: string, j: int, at: int)
    requires KeyedAt(rows, id, j) && rows[j].status == "pending"
    ensures var before := CalculateStats(LoadWithdrawals(Some(rows)));
            var after := CalculateStats(LoadWithdrawals(Some(SetWithdrawalStatus(rows, id, "paid", at))));
            after.total == before.total && after.pending + 1 == before.pending && after.paid == before.paid + 1
            && after.totalAmount == before.totalAmount + (if rows[j].netAmount.Some? then rows[j].netAmount.value else 0)
  {
    LoadedStats(rows);
    LoadedStats(SetWithdrawalStatus(rows, id, "paid", at));
    UpdateOneCount(rows, IdIs(id), Stamp("paid", at), RowPending, j);
    UpdateOneCount(rows, IdIs(id), Stamp("paid", at), RowPaid, j);
    UpdateOneSum(rows, IdIs(id), Stamp("paid", at), RowPaidNet, j);
  }

  /** The withdrawals table of the data store, as the page's updates see it. */
  class WithdrawalTable {
    var rows: seq<Withdrawal>

    constructor (initial: seq<Withdrawal>)
      ensures rows == initial
    {
      rows := initial;
    }

    /** `updateWithdrawalStatus`: sets status and processed time on the row with that id; a failed update changes nothing. */
    method UpdateWithdrawalStatus(id: string, newStatus: string, now: int, failed: bool)
      modifies this
      ensures rows == if failed then old(rows) else SetWithdrawalStatus(old(rows), id, newStatus, now)
    {
      if !failed {
        rows := SetWithdrawalStatus(rows, id, newStatus, now);
      }
    }

    /** The "Mark as Paid" button: present only for a pending row, and it requests "paid". */
    method MarkAsPaid(w: WithdrawalView, now: int, failed: bool)
      modifies this
      ensures rows == if w.row.status == "pending" && !failed
                      then SetWithdrawalStatus(old(rows), w.row.id, "paid", now)
                      else old(rows)
    {
      var action := OfferedTransition(w.row.status);
      if action.Some? {
        UpdateWithdrawalStatus(w.row.id, action.value, now, failed);
      }
    }
  }
}
