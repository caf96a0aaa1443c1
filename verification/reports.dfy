/** The per-shift report: one row per shift in the chosen date range with its sales, outflows,
    cost of goods and margin, the losses of the range, the page's totals over the rows, and the
    CSV export. */
module Reports {
  import opened Outcomes
  import opened Vocabulary
  import opened Sums
  import opened Text
  import opened Store
  import opened Ledger
  import opened Sale
  import opened Seqs

  datatype ReportRow = ReportRow(
    shift: Shift,
    ventas: int,
    egresos: int,
    balance: int,
    costoMercaderia: int,
    gananciaNeta: int,
    txCount: nat,
    operatorName: string)

  datatype ReportsData = ReportsData(rows: seq<ReportRow>, totalMermas: int)

  /** Every income counts as a sale in the report, whatever its category. */
  function Inflow(tx: DbTx): int
  {
    if tx.txType == Income then tx.amount else 0
  }

  function Outflow(tx: DbTx): int
  {
    if tx.txType == Expense then tx.amount else 0
  }

  /** A receipt line without a recorded cost (written before cost lots existed) costs 0. */
  function LineCogs(it: ReceiptItem): int
  {
    if it.cogs.Some? then it.cogs.value else 0
  }

  /** Cost of goods of a row: the receipt costs of income sales only; an unreadable receipt
      adds nothing. */
  function RowCogs(tx: DbTx): int
  {
    if tx.txType == Income && tx.category == Sale && tx.receipt.Items? then Sum(tx.receipt.items, LineCogs) else 0
  }

  /** The operator column: the owner's name, or `Sistema` when it is missing or empty. */
  function OperatorName(names: map<UserId, string>, userId: UserId): (r: string)
    ensures r != ""
    ensures r == "Sistema" <==> userId !in names || names[userId] == "" || names[userId] == "Sistema"
  {
    if userId in names && names[userId] != "" then names[userId] else "Sistema"
  }

  /** The row a shift should get, stated with sums over its transactions. */
  function RowOf(sh: Shift, txs: seq<DbTx>, names: map<UserId, string>): ReportRow
  {
    var v := Sum(txs, Inflow);
    var e := Sum(txs, Outflow);
    var c := Sum(txs, RowCogs);
    ReportRow(sh, v, e, v - e, c, v - c, |txs|, OperatorName(names, sh.userId))
  }

  /** Balance is sales less outflows, and margin is sales less cost of goods. */
  predicate Consistent(row: ReportRow)
  {
    row.balance == row.ventas - row.egresos && row.gananciaNeta == row.ventas - row.costoMercaderia
  }

  /** The inner loop over one receipt's lines. */
  method ReceiptCost(items: seq<ReceiptItem>) returns (c: int)
    ensures c == Sum(items, LineCogs)
  {
    c := 0;
    var j := 0;
    while j < |items|
      invariant 0 <= j <= |items|
      invariant c == Sum(items[..j], LineCogs)
    {
      if items[j].cogs.Some? {
        c := c + items[j].cogs.value;
      }
      assert items[..j + 1][..j] == items[..j];
      j := j + 1;
    }
    assert items[..j] == items;
  }

  /** The loop over one shift's transactions, with the source's three-way branch. */
  method BuildRow(sh: Shift, txs: seq<DbTx>, names: map<UserId, string>) returns (row: ReportRow)
    ensures row == RowOf(sh, txs, names)
    ensures Consistent(row) && row.txCount == |txs|
  {
    var ventas, egresos, cogs := 0, 0, 0;
    var i := 0;
    while i < |txs|
      invariant 0 <= i <= |txs|
      invariant ventas == Sum(txs[..i], Inflow)
      invariant egresos == Sum(txs[..i], Outflow)
      invariant cogs == Sum(txs[..i], RowCogs)
    {
      var t := txs[i];
      if t.txType == Income && t.category == Sale {
        ventas := ventas + t.amount;
        if t.receipt.Items? {
          var c := ReceiptCost(t.receipt.items);
          cogs := cogs + c;
        }
      } else if t.txType == Expense {
        egresos := egresos + t.amount;
      } else if t.txType == Income {
        ventas := ventas + t.amount;
      }
      assert txs[..i + 1][..i] == txs[..i];
      i := i + 1;
    }
    assert txs[..i] == txs;
    row := ReportRow(sh, ventas, egresos, ventas - egresos, cogs, ventas - cogs, |txs|, OperatorName(names, sh.userId));
  }

  /** The loop adding up the cost of the losses in the range. */
  method TotalMermas(losses: seq<Loss>) returns (mermas: int)
    ensures mermas == Sum(losses, (l: Loss) => l.cogs)
  {
    mermas := 0;
    var j := 0;
    while j < |losses|
      invariant 0 <= j <= |losses|
      invariant mermas == Sum(losses[..j], (l: Loss) => l.cogs)
    {
      mermas := mermas + losses[j].cogs;
      assert losses[..j + 1][..j] == losses[..j];
      j := j + 1;
    }
    assert losses[..j] == losses;
  }

  /** `getReportsData`, admin only. `shifts` and `losses` are the ones whose start or creation
      time lies in the chosen range, in the order the database returns them; each shift's row is
      built from the ledger rows that reference it. */
  method GetReportsData(st: State, caller: Caller, shifts: seq<Shift>, losses: seq<Loss>, names: map<UserId, string>)
    returns (r: Result<ReportsData>)
    ensures !caller.isAdmin <==> r == Err(Unauthorized)
    ensures r.Ok? ==>
      && |r.value.rows| == |shifts|
      && r.value.totalMermas == Sum(losses, (l: Loss) => l.cogs)
      && forall i :: 0 <= i < |shifts| ==> r.value.rows[i] == RowOf(shifts[i], ShiftTxs(st.txs, shifts[i].id), names)
  {
    if !caller.isAdmin {
      return Err(Unauthorized);
    }
    var mermas := TotalMermas(losses);
    var rows: seq<ReportRow> := [];
    var i := 0;
    while i < |shifts|
      invariant 0 <= i <= |shifts|
      invariant |rows| == i
      invariant forall k :: 0 <= k < i ==> rows[k] == RowOf(shifts[k], ShiftTxs(st.txs, shifts[k].id), names)
    {
      var row := BuildRow(shifts[i], ShiftTxs(st.txs, shifts[i].id), names);
      rows := rows + [row];
      i := i + 1;
    }
    r := Ok(ReportsData(rows, mermas));
  }

  /** A shift's row gains a sale's total, its receipt costs and one more transaction once the
      sale is recorded against it; the operator does not change. */
  lemma SaleAddsToShiftRow(st: State, caller: Caller, sh: Shift, items: seq<SaleItem>, pay: ContainerKey, names: map<UserId, string>)
    requires ProcessSale(st, caller, sh.id, items, pay).Ok?
    ensures var st' := ProcessSale(st, caller, sh.id, items, pay).value;
      var before := RowOf(sh, ShiftTxs(st.txs, sh.id), names);
      var after := RowOf(sh, ShiftTxs(st'.txs, sh.id), names);
      && after.ventas == before.ventas + SaleTotal(items)
      && after.egresos == before.egresos
      && after.costoMercaderia == before.costoMercaderia + Sum(ApplyLines(st.products, items).value.receipt, LineCogs)
      && after.txCount == before.txCount + 1
  {
    var st' := ProcessSale(st, caller, sh.id, items, pay).value;
    var tx := st'.txs[|st.txs|];
    Snoc(st'.txs, st.txs);
    ShiftTxsSnoc(st.txs, tx, sh.id);
    RowOfSnoc(sh, ShiftTxs(st.txs, sh.id), tx, names);
  }

  /** One more transaction adds its inflow, outflow and cost to the row and counts once. */
  lemma RowOfSnoc(sh: Shift, txs: seq<DbTx>, tx: DbTx, names: map<UserId, string>)
    ensures var before := RowOf(sh, txs, names);
      var after := RowOf(sh, txs + [tx], names);
      && after.ventas == before.ventas + Inflow(tx)
      && after.egresos == before.egresos + Outflow(tx)
      && after.costoMercaderia == before.costoMercaderia + RowCogs(tx)
      && after.txCount == before.txCount + 1
  {
    assert (txs + [tx])[..|txs|] == txs;
  }

  /** An income entered by hand counts as sales in its shift's row but brings no cost of goods,
      so it raises the reported margin by its full amount. */
  lemma ManualIncomeRaisesMargin(st: State, caller: Caller, sh: Shift, c: UiCategory, k: ContainerKey,
                                 amount: int, description: string, names: map<UserId, string>)
    requires AddTransaction(st, caller, sh.id, Ingreso, c, k, amount, description).Ok?
    ensures var st' := AddTransaction(st, caller, sh.id, Ingreso, c, k, amount, description).value;
      var before := RowOf(sh, ShiftTxs(st.txs, sh.id), names);
      var after := RowOf(sh, ShiftTxs(st'.txs, sh.id), names);
      && after.ventas == before.ventas + amount
      && after.costoMercaderia == before.costoMercaderia
      && after.gananciaNeta == before.gananciaNeta + amount
  {
    var st' := AddTransaction(st, caller, sh.id, Ingreso, c, k, amount, description).value;
    var tx := st'.txs[|st.txs|];
    ShiftTxsSnoc(st.txs, tx, sh.id);
    RowOfSnoc(sh, ShiftTxs(st.txs, sh.id), tx, names);
  }

  /** The summary cards of the reports page. */
  datatype Totals = Totals(ventas: int, egresos: int, balance: int, cogs: int, mermas: int, ganancia: int)

  function PageTotals(data: ReportsData): Totals
  {
    var rows := data.rows;
    Totals(Sum(rows, (r: ReportRow) => r.ventas), Sum(rows, (r: ReportRow) => r.egresos),
           Sum(rows, (r: ReportRow) => r.balance), Sum(rows, (r: ReportRow) => r.costoMercaderia),
           data.totalMermas, Sum(rows, (r: ReportRow) => r.gananciaNeta) - data.totalMermas)
  }

  /** Over rows built as the server builds them, the total balance is total sales less total
      outflows, and the total margin is total sales less total cost of goods less the losses. */
  lemma TotalsConsistent(data: ReportsData)
    requires forall i :: 0 <= i < |data.rows| ==> Consistent(data.rows[i])
    ensures var t := PageTotals(data);
      && t.balance == t.ventas - t.egresos
      && t.ganancia == t.ventas - t.cogs - t.mermas
  {
    SumDifference(data.rows, (r: ReportRow) => r.ventas, (r: ReportRow) => r.egresos, (r: ReportRow) => r.balance);
    SumDifference(data.rows, (r: ReportRow) => r.ventas, (r: ReportRow) => r.costoMercaderia, (r: ReportRow) => r.gananciaNeta);
  }

  lemma RowOfConsistent(sh: Shift, txs: seq<DbTx>, names: map<UserId, string>)
    ensures Consistent(RowOf(sh, txs, names))
  {
  }

  function StatusName(s: ShiftStatus): string
  {
    match s
    case Open => "open"
    case Closed => "closed"
  }

  const CsvHeader: string := "Fecha,Período,Operador,Estado,Ventas,Egresos,CostoMercaderia,GananciaNeta,BalanceCaja,Transacciones\n"

  /** The ten columns of a row, in header order. The date is the day of the start instant, and
      the period and status are read back in lower case, as the shift mapper does. */
  function CsvFields(r: ReportRow): (f: seq<string>)
    ensures |f| == 10
  {
    [ShiftDay(r.shift), Lower(r.shift.shiftType), r.operatorName, StatusName(r.shift.status),
     IntToString(r.ventas), IntToString(r.egresos), IntToString(r.costoMercaderia),
     IntToString(r.gananciaNeta), IntToString(r.balance), NatToString(r.txCount)]
  }

  /** The date column holds the day of the start instant: for the ISO rendering stored on a
      shift, its `YYYY-MM-DD` head. */
  lemma CsvDateColumnIsDay(r: ReportRow)
    requires |r.shift.date| >= 10
    ensures CsvFields(r)[0] == r.shift.date[..10]
    ensures r.shift.date == "2026-10-10T03:00:00.000Z" ==> CsvFields(r)[0] == "2026-10-10"
  {
  }

  function CsvLine(r: ReportRow): string
  {
    Join(CsvFields(r), ',')
  }

  function CsvLines(rows: seq<ReportRow>): (lines: seq<string>)
    ensures |lines| == |rows|
    ensures forall i :: 0 <= i < |rows| ==> lines[i] == CsvLine(rows[i])
  {
    seq(|rows|, i requires 0 <= i < |rows| => CsvLine(rows[i]))
  }

  /** The exported file: the header line, then the rows joined by newlines. */
  function Csv(rows: seq<ReportRow>): (s: string)
    ensures |s| >= |CsvHeader| && s[..|CsvHeader|] == CsvHeader
  {
    CsvHeader + Join(CsvLines(rows), '\n')
  }

  /** A text column that cannot break the file's structure. */
  predicate CsvSafe(s: string)
  {
    ',' !in s && '\n' !in s
  }

  lemma NumberIsCsvSafe(n: int)
    ensures CsvSafe(IntToString(n))
  {
    var s := IntToString(n);
    assert forall i :: 0 <= i < |s| ==> IsDigit(s[i]) || s[i] == '-';
  }

  lemma FieldsAreCsvSafe(r: ReportRow)
    requires CsvSafe(r.shift.date) && CsvSafe(r.shift.shiftType) && CsvSafe(r.operatorName)
    ensures forall j :: 0 <= j < 10 ==> CsvSafe(CsvFields(r)[j])
  {
    var f := CsvFields(r);
    NumberIsCsvSafe(r.ventas);
    NumberIsCsvSafe(r.egresos);
    NumberIsCsvSafe(r.costoMercaderia);
    NumberIsCsvSafe(r.gananciaNeta);
    NumberIsCsvSafe(r.balance);
    NumberIsCsvSafe(r.txCount);
    var day := ShiftDay(r.shift);
    assert forall i :: 0 <= i < |day| ==> day[i] == r.shift.date[i];
    var p := Lower(r.shift.shiftType);
    assert forall i :: 0 <= i < |p| ==> p[i] == LowerChar(r.shift.shiftType[i]);
    assert f[9] == IntToString(r.txCount);
  }

  /** When no text column holds a comma or a newline, the body of the file splits back into one
      line per row, in row order, and each line splits back into that row's ten columns. The
      export is offered only when there is at least one row. */
  lemma CsvRoundTrip(rows: seq<ReportRow>)
    requires |rows| >= 1
    requires forall i :: 0 <= i < |rows| ==>
      CsvSafe(rows[i].shift.date) && CsvSafe(rows[i].shift.shiftType) && CsvSafe(rows[i].operatorName)
    ensures var lines := Split(Csv(rows)[|CsvHeader|..], '\n');
      && |lines| == |rows|
      && forall i :: 0 <= i < |rows| ==> Split(lines[i], ',') == CsvFields(rows[i])
  {
    var lines := CsvLines(rows);
    forall i | 0 <= i < |rows|
      ensures '\n' !in lines[i] && Split(lines[i], ',') == CsvFields(rows[i])
    {
      FieldsAreCsvSafe(rows[i]);
      JoinAvoids(CsvFields(rows[i]), ',', '\n');
      SplitJoin(CsvFields(rows[i]), ',');
    }
    SplitJoin(lines, '\n');
    assert Csv(rows)[|CsvHeader|..] == Join(lines, '\n');
  }
}
