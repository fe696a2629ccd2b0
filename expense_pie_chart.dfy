/** The data of the "Income vs Expenses" pie: two slices and their cell colours. */
module ExpensePieChart {
  import opened Ledger

  datatype Slice = Slice(name: string, value: real, color: string)

  const COLORS: seq<string> := ["hsl(var(--success))", "hsl(var(--error))"]

  /** The literal `data` array: the income slice, then the expense slice. */
  function PieData(es: seq<Entry>): (d: seq<Slice>)
    ensures |d| == 2 && d[0].name == "Income" && d[1].name == "Expenses"
    ensures d[0].value == TotalOf(es, "income") && d[1].value == TotalOf(es, "expense")
  {
    [Slice("Income", TotalOf(es, "income"), "hsl(var(--success))"),
     Slice("Expenses", TotalOf(es, "expense"), "hsl(var(--error))")]
  }

  /** `COLORS[index % COLORS.length]`. */
  function CellColor(i: nat): (c: string)
    ensures c == (if i % 2 == 0 then "hsl(var(--success))" else "hsl(var(--error))")
  {
    COLORS[i % |COLORS|]
  }

  /** Each cell gets the colour its slice names. */
  lemma CellsMatchSlices(es: seq<Entry>)
    ensures forall i :: 0 <= i < |PieData(es)| ==> CellColor(i) == PieData(es)[i].color
  {
  }

  /** A transaction of any other type changes neither slice. */
  lemma OtherKindNotCharted(es: seq<Entry>, e: Entry)
    requires e.kind != "income" && e.kind != "expense"
    ensures PieData(es + [e]) == PieData(es)
  {
    OtherKindIgnored(es, e, "income");
    OtherKindIgnored(es, e, "expense");
  }
}
