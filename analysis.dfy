/** The analysis panel: income and expense totals over the exposed list, the
    net balance, and the pie-chart entries, which exist only for positive
    totals. */
module Analysis {
  import opened Common

  /** One pie entry, `{ name, value }`. */
  datatype Entry = Entry(name: string, value: real)

  /** The two fills of the chart, `COLORS`; the summary card paints the
      income figure with the first and the expense figure with the second. */
  const IncomeColor: string := "#00C49F"
  const ExpenseColor: string := "#FF8042"
  const Colors: seq<string> := [IncomeColor, ExpenseColor]

  /** `txs.filter(t => t.transaction_type === ty)`. */
  function OfType(txs: seq<Tx>, ty: string): (r: seq<Tx>)
    ensures |r| <= |txs|
    ensures forall t :: t in r <==> t in txs && t.transactionType == ty
  {
    if txs == [] then []
    else (if txs[0].transactionType == ty then [txs[0]] else []) + OfType(txs[1..], ty)
  }

  /** Filtering by type and then summing is the fold with the type test
      inside it (`SumOfType`), the form every other page uses. */
  lemma {:induction false} FilteredSumIsSumOfType(txs: seq<Tx>, ty: string)
    ensures SumAmounts(OfType(txs, ty)) == SumOfType(txs, ty)
  {
    if txs != [] {
      FilteredSumIsSumOfType(txs[1..], ty);
      var head := if txs[0].transactionType == ty then [txs[0]] else [];
      SumAmountsConcat(head, OfType(txs[1..], ty));
    }
  }

  /** `totalIncome`: the sum over the rows whose type is exactly "Income". */
  function TotalIncome(txs: seq<Tx>): (r: real)
    ensures r == SumAmounts(OfType(txs, "Income"))
  {
    FilteredSumIsSumOfType(txs, "Income");
    SumOfType(txs, "Income")
  }

  /** `totalExpense`: the sum over the rows whose type is exactly "Expense". */
  function TotalExpense(txs: seq<Tx>): (r: real)
    ensures r == SumAmounts(OfType(txs, "Expense"))
  {
    FilteredSumIsSumOfType(txs, "Expense");
    SumOfType(txs, "Expense")
  }

  /** `totalBalance`. */
  function TotalBalance(txs: seq<Tx>): (r: real)
    ensures r == SumAmounts(OfType(txs, "Income")) - SumAmounts(OfType(txs, "Expense"))
  {
    TotalIncome(txs) - TotalExpense(txs)
  }

  /** The pie `data`: an Income entry when income is positive, then an
      Expense entry when expense is positive. */
  function ChartData(txs: seq<Tx>): (data: seq<Entry>)
    ensures |data| <= 2
    ensures (exists i :: 0 <= i < |data| && data[i].name == "Income") <==> TotalIncome(txs) > 0.0
    ensures (exists i :: 0 <= i < |data| && data[i].name == "Expense") <==> TotalExpense(txs) > 0.0
    ensures forall i :: 0 <= i < |data| ==>
      (data[i].name == "Income" && data[i].value == TotalIncome(txs))
      || (data[i].name == "Expense" && data[i].value == TotalExpense(txs))
    // Income comes first whenever both are present
    ensures |data| == 2 ==> data[0].name == "Income" && data[1].name == "Expense"
    // every entry is a positive slice
    ensures forall i :: 0 <= i < |data| ==> data[i].value > 0.0
  {
    var income := if TotalIncome(txs) > 0.0 then [Entry("Income", TotalIncome(txs))] else [];
    var expense := if TotalExpense(txs) > 0.0 then [Entry("Expense", TotalExpense(txs))] else [];
    assert "Income"[0] != "Expense"[0];
    assert |income| == 1 ==> (income + expense)[0] == income[0];
    assert |expense| == 1 ==> (income + expense)[|income|] == expense[0];
    income + expense
  }

  /** The panel shows "No financial data" instead of the chart. */
  predicate ShowsNoData(txs: seq<Tx>)
    ensures ShowsNoData(txs) ==> TotalIncome(txs) <= 0.0 && TotalExpense(txs) <= 0.0
  {
    |ChartData(txs)| == 0
  }

  /** The empty branch is taken exactly when neither total is positive. */
  lemma NoDataIffNoPositiveTotal(txs: seq<Tx>)
    ensures ShowsNoData(txs) <==> TotalIncome(txs) <= 0.0 && TotalExpense(txs) <= 0.0
  {
    var data := ChartData(txs);
    if TotalIncome(txs) > 0.0 {
      assert data[0].name == "Income";
    } else if TotalExpense(txs) > 0.0 {
      assert data[0].name == "Expense";
    }
  }

  /** A row whose type is neither "Income" nor "Expense" (for instance a
      lowercase "expense"), wherever it sits in the
      list, changes neither total. */
  lemma OtherTypeIgnored(a: seq<Tx>, t: Tx, b: seq<Tx>)
    requires t.transactionType != "Income" && t.transactionType != "Expense"
    ensures TotalIncome(a + [t] + b) == TotalIncome(a + b)
    ensures TotalExpense(a + [t] + b) == TotalExpense(a + b)
    ensures TotalBalance(a + [t] + b) == TotalBalance(a + b)
  {
    SumOfTypeConcat(a + [t], b, "Income");
    SumOfTypeConcat(a, [t], "Income");
    SumOfTypeConcat(a, b, "Income");
    SumOfTypeConcat(a + [t], b, "Expense");
    SumOfTypeConcat(a, [t], "Expense");
    SumOfTypeConcat(a, b, "Expense");
  }

  /** An "Income" row adds its amount to the income total and to the
      balance, an "Expense" row subtracts its amount from the balance. */
  lemma TypedRowMovesBalance(t: Tx, txs: seq<Tx>)
    ensures t.transactionType == "Income" ==>
      TotalIncome([t] + txs) == TotalIncome(txs) + t.amount
      && TotalBalance([t] + txs) == TotalBalance(txs) + t.amount
    ensures t.transactionType == "Expense" ==>
      TotalExpense([t] + txs) == TotalExpense(txs) + t.amount
      && TotalBalance([t] + txs) == TotalBalance(txs) - t.amount
  {
    assert ([t] + txs)[1..] == txs;
  }

  // ---------------------------------------------------------------------
  // The slice colours. Each Cell is filled by its index in `data`, so when
  // only the Expense entry is present it sits at index 0 and is painted
  // with the income colour. The corrected fill follows the entry's series.
  // ---------------------------------------------------------------------

  /** The fill of the Cell at `index`, as written: `COLORS[index % 2]`. */
  function CellColorAsWritten(data: seq<Entry>, index: nat): (c: string)
    requires index < |data|
    ensures index % 2 == 0 ==> c == IncomeColor
    ensures index % 2 == 1 ==> c == ExpenseColor
  {
    Colors[index % |Colors|]
  }

  /** The fill of an entry by its series, matching the summary card. */
  function CellColor(e: Entry): (c: string)
    ensures e.name == "Income" ==> c == IncomeColor
    ensures e.name != "Income" ==> c == ExpenseColor
  {
    if e.name == "Income" then IncomeColor else ExpenseColor
  }

  /** The series fill of the chart as the totals decide it: an expense-only
      chart has one slice, in the expense colour; a chart with both series
      paints the first slice in the income colour and the second in the
      expense colour; an income-only chart has one slice in the income
      colour. */
  lemma ChartColorsMatchSummary(txs: seq<Tx>)
    ensures TotalIncome(txs) <= 0.0 && TotalExpense(txs) > 0.0 ==>
      |ChartData(txs)| == 1 && CellColor(ChartData(txs)[0]) == ExpenseColor
    ensures TotalIncome(txs) > 0.0 && TotalExpense(txs) > 0.0 ==>
      |ChartData(txs)| == 2 && CellColor(ChartData(txs)[0]) == IncomeColor
      && CellColor(ChartData(txs)[1]) == ExpenseColor
    ensures TotalIncome(txs) > 0.0 && TotalExpense(txs) <= 0.0 ==>
      |ChartData(txs)| == 1 && CellColor(ChartData(txs)[0]) == IncomeColor
  {
    var data := ChartData(txs);
    assert "Income"[0] != "Expense"[0];
    if TotalIncome(txs) > 0.0 && TotalExpense(txs) > 0.0 {
      var i :| 0 <= i < |data| && data[i].name == "Income";
      var j :| 0 <= j < |data| && data[j].name == "Expense";
      assert i != j;
    } else if TotalIncome(txs) > 0.0 || TotalExpense(txs) > 0.0 {
      assert |data| != 0;
    }
  }

  /** When income is positive the Income entry comes first, and the fill by
      index agrees with the fill by series. */
  lemma AsWrittenAgreesWithIncome(txs: seq<Tx>)
    requires TotalIncome(txs) > 0.0
    ensures forall i :: 0 <= i < |ChartData(txs)| ==>
      CellColorAsWritten(ChartData(txs), i) == CellColor(ChartData(txs)[i])
  {
    var data := ChartData(txs);
    assert data[0].name == "Income";
  }

  /** A single expense of 10: the only slice is the Expense entry, the fill
      as written is the income colour, the corrected fill the expense one. */
  lemma ExpenseOnlyChartTakesIncomeColor()
    ensures var txs := [Tx(Some(1), 10.0, "Expense", "", "", "Rent", None, None)];
      ChartData(txs) == [Entry("Expense", 10.0)]
      && CellColorAsWritten(ChartData(txs), 0) == IncomeColor
      && CellColor(ChartData(txs)[0]) == ExpenseColor
      && IncomeColor != ExpenseColor
  {
    var txs := [Tx(Some(1), 10.0, "Expense", "", "", "Rent", None, None)];
    assert SumOfType(txs, "Income") == 0.0;
    assert SumOfType(txs, "Expense") == 10.0;
    assert IncomeColor[1] != ExpenseColor[1];
  }
}
