/** The three figures of the BalanceSummary card and the style of the net balance. */
module BalanceSummary {
  import opened Ledger

  function TotalIncome(es: seq<Entry>): real {
    TotalOf(es, "income")
  }

  function TotalExpenses(es: seq<Entry>): real {
    TotalOf(es, "expense")
  }

  function NetBalance(es: seq<Entry>): real {
    TotalIncome(es) - TotalExpenses(es)
  }

  /** What each entry adds to the balance: its amount for income, minus it for an expense, nothing otherwise. */
  function Signed(e: Entry): real {
    if e.kind == "income" then e.amount else if e.kind == "expense" then -e.amount else 0.0
  }

  /** An independent running balance, entry by entry from the front. */
  function SignedSum(es: seq<Entry>): real {
    if es == [] then 0.0 else Signed(es[0]) + SignedSum(es[1..])
  }

  /** The net balance is the running sum of signed amounts. */
  lemma {:induction false} NetBalanceIsSignedSum(es: seq<Entry>)
    ensures NetBalance(es) == SignedSum(es)
  {
    if es != [] {
      NetBalanceIsSignedSum(es[1..]);
      assert es == [es[0]] + es[1..];
      TotalOfAppend([es[0]], es[1..], "income");
      TotalOfAppend([es[0]], es[1..], "expense");
      TotalOfSingle(es[0], "income");
      TotalOfSingle(es[0], "expense");
    }
  }

  /** An empty list gives zero for all three figures (the fold starts at 0). */
  lemma EmptyTotals()
    ensures TotalIncome([]) == 0.0 && TotalExpenses([]) == 0.0 && NetBalance([]) == 0.0
  {
  }

  /** Adding an income raises the balance by its amount, adding an expense lowers it by its amount. */
  lemma NetBalanceAppend(es: seq<Entry>, e: Entry)
    ensures e.kind == "income" ==> NetBalance(es + [e]) == NetBalance(es) + e.amount
    ensures e.kind == "expense" ==> NetBalance(es + [e]) == NetBalance(es) - e.amount
    ensures e.kind != "income" && e.kind != "expense" ==> NetBalance(es + [e]) == NetBalance(es)
  {
    TotalOfAppend(es, [e], "income");
    TotalOfAppend(es, [e], "expense");
    TotalOfSingle(e, "income");
    TotalOfSingle(e, "expense");
  }

  /** `netBalance >= 0 ? "text-success" : "text-error"`. */
  function NetTone(es: seq<Entry>): (t: Tone)
    ensures t == SuccessTone <==> TotalIncome(es) >= TotalExpenses(es)
  {
    if NetBalance(es) >= 0.0 then SuccessTone else ErrorTone
  }
}
