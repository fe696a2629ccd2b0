/** The TransactionHistory table: a newest-first copy of the list and the per-row labels. */
module TransactionHistory {
  import opened Ledger
  import Sorting

  /** `[...transactions].sort((a, b) => date(b) - date(a))`: the input itself is a value and stays as it is. */
  function SortedTransactions(es: seq<Entry>): (r: seq<Entry>)
    ensures Sorting.NewestFirst(r, DateOf)
    ensures multiset(r) == multiset(es) && |r| == |es|
  {
    Sorting.SortNewestFirst(es, DateOf)
  }

  /** Sorting for display changes no total. */
  lemma SortKeepsTotals(es: seq<Entry>, kind: string)
    ensures TotalOf(SortedTransactions(es), kind) == TotalOf(es, kind)
  {
    TotalOfPermutation(SortedTransactions(es), es, kind);
  }

  /** The badge text: "Income" exactly for type "income", "Expense" for anything else. */
  function BadgeLabel(e: Entry): (text: string)
    ensures text == "Income" <==> e.kind == "income"
    ensures text == "Expense" <==> e.kind != "income"
  {
    if e.kind == "income" then "Income" else "Expense"
  }

  /** The amount cell's colour. */
  function AmountTone(e: Entry): (t: Tone)
    ensures t == SuccessTone <==> e.kind == "income"
  {
    if e.kind == "income" then SuccessTone else ErrorTone
  }
}
