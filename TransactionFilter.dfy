/**
 * The date filter of the transaction history. The two date inputs arrive
 * already read as instants in milliseconds (`None` when left empty); a
 * transaction's time is its nanosecond timestamp. The source reads each
 * entered date as midnight UTC of that date, not as local midnight.
 */
module TransactionFilter {
  import opened Wrappers
  import opened Backend
  import Seqs

  /** At or after the start instant: `timestamp / 1_000_000 >= start`, compared exactly. */
  function OnOrAfter(startMs: int): Transaction -> bool
  {
    (t: Transaction) => t.timestamp >= startMs * 1_000_000
  }

  /** Before the end date's following day, so the whole end day is kept. */
  function BeforeDayAfter(endMs: int): Transaction -> bool
  {
    (t: Transaction) => t.timestamp < (endMs + 86_400_000) * 1_000_000
  }

  /** The transaction lies in the chosen window; an empty date input puts no bound on its side. */
  predicate InWindow(t: Transaction, startMs: Option<int>, endMs: Option<int>)
  {
    && (startMs.None? || t.timestamp >= startMs.value * 1_000_000)
    && (endMs.None? || t.timestamp < (endMs.value + 86_400_000) * 1_000_000)
  }

  /**
   * `filteredTransactions`: nothing while the list is not loaded; otherwise
   * the list, filtered by the start date and then by the end date.
   */
  function FilterTransactions(transactions: Option<seq<Transaction>>, startMs: Option<int>, endMs: Option<int>): (r: seq<Transaction>)
    ensures transactions.None? ==> r == []
    ensures transactions.Some? ==> Seqs.IsSubsequence(r, transactions.value)
    ensures forall t :: t in r ==> transactions.Some? && t in transactions.value && InWindow(t, startMs, endMs)
    ensures transactions.Some? ==> forall t :: t in transactions.value && InWindow(t, startMs, endMs) ==> t in r
  {
    match transactions
    case None => []
    case Some(all) =>
      var fromStart := if startMs.Some? then Seqs.Filter(all, OnOrAfter(startMs.value)) else all;
      assert Seqs.IsSubsequence(fromStart, all) by {
        if startMs.None? {
          Seqs.SubsequenceOfItself(all);
        }
      }
      if endMs.Some? then
        var r := Seqs.Filter(fromStart, BeforeDayAfter(endMs.value));
        Seqs.SubsequenceTransitive(r, fromStart, all);
        r
      else fromStart
  }

  /** With both dates empty the list is shown whole. */
  lemma {:induction false} NoDatesKeepsAll(transactions: seq<Transaction>)
    ensures FilterTransactions(Some(transactions), None, None) == transactions
  {
  }

  /** The two filters in a row are one filter on the window: the order of the transactions is kept. */
  lemma {:induction false} FilterIsWindow(transactions: seq<Transaction>, startMs: Option<int>, endMs: Option<int>)
    ensures FilterTransactions(Some(transactions), startMs, endMs) ==
            Seqs.Filter(transactions, (t: Transaction) => InWindow(t, startMs, endMs))
  {
    var window := (t: Transaction) => InWindow(t, startMs, endMs);
    if startMs.Some? && endMs.Some? {
      Seqs.FilterTwice(transactions, OnOrAfter(startMs.value), BeforeDayAfter(endMs.value), window);
    } else if startMs.Some? {
      Seqs.FilterTwice(transactions, OnOrAfter(startMs.value), (t: Transaction) => true, window);
      Seqs.FilterAll(Seqs.Filter(transactions, OnOrAfter(startMs.value)), (t: Transaction) => true);
    } else if endMs.Some? {
      Seqs.FilterTwice(transactions, (t: Transaction) => true, BeforeDayAfter(endMs.value), window);
      Seqs.FilterAll(transactions, (t: Transaction) => true);
    } else {
      Seqs.FilterAll(transactions, window);
    }
  }

  /** A transaction at any moment of the end date is kept, one at midnight after it is not. */
  lemma {:induction false} EndDayIncluded(t: Transaction, endMs: int)
    ensures t.timestamp == (endMs + 86_400_000) * 1_000_000 - 1 ==> InWindow(t, None, Some(endMs))
    ensures t.timestamp == (endMs + 86_400_000) * 1_000_000 ==> !InWindow(t, None, Some(endMs))
  {
  }
}
