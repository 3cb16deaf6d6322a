/**
 * The transactions page: the filtered list, the three summary totals and the
 * dispute form. Times are milliseconds since the epoch.
 */
module Transactions {
  import opened Wrappers
  import opened TextUtil
  import opened Sequences

  datatype Transaction = Transaction(
    id: string,
    amount: real,
    txType: string,
    status: string,
    description: string,
    timestamp: int,
    recipientName: Option<string>,
    senderName: Option<string>,
    category: string,
    paymentMode: string)

  /** The page's four filter controls. */
  datatype Filters = Filters(searchTerm: string, status: string, txType: string, date: string)

  const DayMs := 24 * 60 * 60 * 1000

  /** `name?.toLowerCase().includes(q)`: an absent name matches nothing. */
  predicate NameMatches(name: Option<string>, q: string) {
    name.Some? && Contains(ToLower(name.value), q)
  }

  /** Case-insensitive substring search over description, recipient and sender. */
  predicate MatchesSearch(t: Transaction, searchTerm: string) {
    var q := ToLower(searchTerm);
    Contains(ToLower(t.description), q) || NameMatches(t.recipientName, q) || NameMatches(t.senderName, q)
  }

  /** The local calendar day of an instant, for a fixed offset from UTC in ms. */
  function LocalDay(ms: int, tzOffsetMs: int): int {
    (ms + tzOffsetMs) / DayMs
  }

  /** The date filter, at instant `now`. */
  predicate MatchesDate(timestamp: int, dateFilter: string, now: int, tzOffsetMs: int) {
    if dateFilter == "today" then LocalDay(timestamp, tzOffsetMs) == LocalDay(now, tzOffsetMs)
    else if dateFilter == "week" then timestamp >= now - 7 * DayMs
    else if dateFilter == "month" then timestamp >= now - 30 * DayMs
    else true
  }

  /** The test `filteredTransactions` applies to one transaction. */
  predicate Keep(t: Transaction, f: Filters, now: int, tzOffsetMs: int) {
    && MatchesSearch(t, f.searchTerm)
    && (f.status == "all" || t.status == f.status)
    && (f.txType == "all" || t.txType == f.txType)
    && MatchesDate(t.timestamp, f.date, now, tzOffsetMs)
  }

  /** `filteredTransactions`. */
  function FilterTransactions(txs: seq<Transaction>, f: Filters, now: int, tzOffsetMs: int): (r: seq<Transaction>)
    ensures |r| <= |txs|
  {
    if txs == [] then []
    else (if Keep(txs[0], f, now, tzOffsetMs) then [txs[0]] else []) + FilterTransactions(txs[1..], f, now, tzOffsetMs)
  }

  /**
   * The filtered list keeps the original order, holds exactly the transactions
   * that pass every filter, as often as the list does, and never one that fails.
   */
  lemma {:induction false} FilterIsOrderedSelection(txs: seq<Transaction>, f: Filters, now: int, tzOffsetMs: int)
    ensures IsSubsequence(FilterTransactions(txs, f, now, tzOffsetMs), txs)
    ensures forall t :: t in FilterTransactions(txs, f, now, tzOffsetMs) <==> t in txs && Keep(t, f, now, tzOffsetMs)
    ensures forall t :: multiset(FilterTransactions(txs, f, now, tzOffsetMs))[t]
                        == if Keep(t, f, now, tzOffsetMs) then multiset(txs)[t] else 0
  {
    if txs != [] {
      var rest := FilterTransactions(txs[1..], f, now, tzOffsetMs);
      FilterIsOrderedSelection(txs[1..], f, now, tzOffsetMs);
      if !Keep(txs[0], f, now, tzOffsetMs) {
        assert FilterTransactions(txs, f, now, tzOffsetMs) == rest;
      } else {
        var r := FilterTransactions(txs, f, now, tzOffsetMs);
        assert r == [txs[0]] + rest;
        assert r[1..] == rest;
        assert multiset(r) == multiset{txs[0]} + multiset(rest);
      }
      assert txs == [txs[0]] + txs[1..];
      assert multiset(txs) == multiset{txs[0]} + multiset(txs[1..]);
    }
  }

  /** A kept transaction passes the status and type filters unless they are `'all'`. */
  lemma KeptTransactionsMatchFilters(txs: seq<Transaction>, f: Filters, now: int, tzOffsetMs: int, t: Transaction)
    requires t in FilterTransactions(txs, f, now, tzOffsetMs)
    ensures f.status != "all" ==> t.status == f.status
    ensures f.txType != "all" ==> t.txType == f.txType
    ensures f.date == "week" ==> t.timestamp >= now - 7 * DayMs
    ensures f.date == "month" ==> t.timestamp >= now - 30 * DayMs
  {
    FilterIsOrderedSelection(txs, f, now, tzOffsetMs);
  }

  /** With every filter at its initial value, the list is shown unfiltered. */
  lemma {:induction false} DefaultFiltersKeepAll(txs: seq<Transaction>, now: int, tzOffsetMs: int)
    ensures FilterTransactions(txs, Filters("", "all", "all", "all"), now, tzOffsetMs) == txs
  {
    if txs != [] {
      ContainsFacts(ToLower(txs[0].description), "");
      DefaultFiltersKeepAll(txs[1..], now, tzOffsetMs);
    }
  }

  /** Search ignores ASCII case in the search term. */
  lemma SearchIgnoresTermCase(t: Transaction, term: string)
    ensures MatchesSearch(t, term) <==> MatchesSearch(t, ToLower(term))
  {
    ToLowerIdempotent(term);
  }

  /** Typing any piece of a transaction's description finds that transaction. */
  lemma SearchFindsDescriptionSlices(t: Transaction, i: nat, j: nat)
    requires i <= j <= |t.description|
    ensures MatchesSearch(t, t.description[i..j])
  {
    ToLowerSlice(t.description, i, j);
    ContainsSlice(ToLower(t.description), i, j);
  }

  // ----- totals -----

  /** `reduce((sum, t) => sum + t.amount, 0)`. */
  function Sum(txs: seq<Transaction>): real {
    if txs == [] then 0.0 else txs[0].amount + Sum(txs[1..])
  }

  predicate IsCompletedSent(t: Transaction) { t.txType == "sent" && t.status == "completed" }
  predicate IsCompletedReceived(t: Transaction) { t.txType == "received" && t.status == "completed" }
  predicate IsPending(t: Transaction) { t.status == "pending" }

  function TotalSent(txs: seq<Transaction>): real {
    if txs == [] then 0.0 else (if IsCompletedSent(txs[0]) then txs[0].amount else 0.0) + TotalSent(txs[1..])
  }

  function TotalReceived(txs: seq<Transaction>): real {
    if txs == [] then 0.0 else (if IsCompletedReceived(txs[0]) then txs[0].amount else 0.0) + TotalReceived(txs[1..])
  }

  function PendingAmount(txs: seq<Transaction>): real {
    if txs == [] then 0.0 else (if IsPending(txs[0]) then txs[0].amount else 0.0) + PendingAmount(txs[1..])
  }

  /** Each total is additive over a concatenation of transaction lists. */
  lemma {:induction false} TotalsAppend(a: seq<Transaction>, b: seq<Transaction>)
    ensures TotalSent(a + b) == TotalSent(a) + TotalSent(b)
    ensures TotalReceived(a + b) == TotalReceived(a) + TotalReceived(b)
    ensures PendingAmount(a + b) == PendingAmount(a) + PendingAmount(b)
    ensures Sum(a + b) == Sum(a) + Sum(b)
  {
    if a == [] {
      assert a + b == b;
    } else {
      TotalsAppend(a[1..], b);
      assert (a + b)[1..] == a[1..] + b;
    }
  }

  /**
   * The three totals count disjoint sets of transactions: a transaction is
   * counted by at most one of them, so for non-negative amounts they add up to at
   * most the sum of all amounts, and a failed transaction counts in none.
   */
  lemma {:induction false} TotalsAreDisjointShares(txs: seq<Transaction>)
    requires forall i :: 0 <= i < |txs| ==> txs[i].amount >= 0.0
    ensures 0.0 <= TotalSent(txs) && 0.0 <= TotalReceived(txs) && 0.0 <= PendingAmount(txs)
    ensures TotalSent(txs) + TotalReceived(txs) + PendingAmount(txs) <= Sum(txs)
    ensures (forall i :: 0 <= i < |txs| ==> txs[i].status == "failed") ==>
      TotalSent(txs) == 0.0 && TotalReceived(txs) == 0.0 && PendingAmount(txs) == 0.0
  {
    if txs != [] {
      TotalsAreDisjointShares(txs[1..]);
    }
  }

  /** What each total counts for a single transaction. */
  lemma SingleTransactionTotals(t: Transaction)
    ensures TotalSent([t]) == (if t.txType == "sent" && t.status == "completed" then t.amount else 0.0)
    ensures TotalReceived([t]) == (if t.txType == "received" && t.status == "completed" then t.amount else 0.0)
    ensures PendingAmount([t]) == (if t.status == "pending" then t.amount else 0.0)
  {
    assert [t][1..] == [];
  }

  // ----- dispute form -----

  /** The dispute record the page builds (and only logs). */
  datatype Dispute = Dispute(
    id: string,
    transactionId: string,
    reason: string,
    description: string,
    status: string,
    createdAt: int)

  /** The dispute dialog's state. */
  class DisputeForm {
    var selected: Option<Transaction>
    var reason: string
    var description: string
    var showDialog: bool

    constructor ()
      ensures selected == None && reason == "" && description == "" && !showDialog
    {
      selected := None;
      reason := "";
      description := "";
      showDialog := false;
    }

    /** The Submit button is disabled while the reason or the description is empty. */
    function SubmitDisabled(): bool
      reads this
    {
      reason == "" || description == ""
    }

    /**
     * `handleDisputeSubmit`, with `Date.now()` as `newId` and the clock as
     * `createdAt`: returns the dispute it creates, if any.
     */
    method HandleDisputeSubmit(newId: string, createdAt: int) returns (created: Option<Dispute>)
      modifies this
      ensures var ready := old(selected).Some? && old(reason) != "" && old(description) != "";
        && (ready <==> created.Some?)
        && (ready ==> created.value == Dispute(newId, old(selected).value.id, old(reason), old(description), "open", createdAt))
        && (ready ==> !showDialog && reason == "" && description == "" && selected == None)
        && (!ready ==> showDialog == old(showDialog) && reason == old(reason)
                       && description == old(description) && selected == old(selected))
    {
      if selected.Some? && reason != "" && description != "" {
        created := Some(Dispute(newId, selected.value.id, reason, description, "open", createdAt));
        showDialog := false;
        reason := "";
        description := "";
        selected := None;
      } else {
        created := None;
      }
    }
  }
}
