/** The spreadsheet export: the credit/debit split and the mapping of each line to a
    five-column row. Building and writing the workbook file is left to the spreadsheet
    library; only the sheet names, their rows and the file name are modelled. */
module Export {
  import opened Wrappers
  import opened Sequences
  import opened Transactions

  const DefaultFilename := "transactions"
  const CreditSheetName := "Credit"
  const DebitSheetName := "Debit"

  /** The column headers, in the key order of the row objects. */
  const Columns := ["Date", "Transaction", "Amount", "Description", "Category"]

  datatype Cell = Text(text: string) | Number(value: real)

  /** One spreadsheet row; its fields are the columns, in order. */
  datatype Row = Row(date: string, transaction: string, amount: real, description: string, category: string)

  datatype Sheet = Sheet(name: string, rows: seq<Row>)

  /** The workbook as handed to the writer, and the name of the file it is written to. */
  datatype Workbook = Workbook(sheets: seq<Sheet>, fileName: string)

  /** The category label derived from the is_direct flag. */
  function CategoryLabel(isDirect: bool): (tag: string)
    ensures tag == "DIRECT" <==> isDirect
    ensures tag == "TOYYIBPAY" <==> !isDirect
  {
    if isDirect then "DIRECT" else "TOYYIBPAY"
  }

  /** The cells of a row, under the headers of Columns. */
  function Cells(row: Row): (cs: seq<Cell>)
    ensures |cs| == |Columns|
    ensures forall i :: 0 <= i < |cs| ==> (cs[i].Number? <==> Columns[i] == "Amount")
    ensures forall i :: 0 <= i < |cs| && Columns[i] == "Date" ==> cs[i] == Text(row.date)
    ensures forall i :: 0 <= i < |cs| && Columns[i] == "Transaction" ==> cs[i] == Text(row.transaction)
    ensures forall i :: 0 <= i < |cs| && Columns[i] == "Amount" ==> cs[i] == Number(row.amount)
    ensures forall i :: 0 <= i < |cs| && Columns[i] == "Description" ==> cs[i] == Text(row.description)
    ensures forall i :: 0 <= i < |cs| && Columns[i] == "Category" ==> cs[i] == Text(row.category)
  {
    [Text(row.date), Text(row.transaction), Number(row.amount), Text(row.description), Text(row.category)]
  }

  /** The cells a line contributes to its sheet, under Date, Transaction, Amount,
      Description and Category in that order. */
  lemma LineCells(t: Transaction)
    ensures Cells(ToRow(t)) == [Text(t.date), Text(t.transaction), Number(t.amount),
      Text(if t.description.Some? then t.description.value else ""),
      Text(if t.isDirect then "DIRECT" else "TOYYIBPAY")]
  {
  }

  /** The row object built for one line. */
  function ToRow(t: Transaction): (row: Row)
    ensures row.date == t.date && row.transaction == t.transaction && row.amount == t.amount
    ensures t.description.None? ==> row.description == ""
    ensures t.description.Some? ==> row.description == t.description.value
    ensures row.category == "DIRECT" <==> t.isDirect
    ensures row.category == "TOYYIBPAY" <==> !t.isDirect
  {
    Row(t.date, t.transaction, t.amount, t.description.GetOr(""), CategoryLabel(t.isDirect))
  }

  /** `toRows`: one row per line, in the order of the lines. */
  function ToRows(ts: seq<Transaction>): (rows: seq<Row>)
    ensures |rows| == |ts|
    ensures forall i :: 0 <= i < |ts| ==> rows[i] == ToRow(ts[i])
  {
    if ts == [] then [] else [ToRow(ts[0])] + ToRows(ts[1..])
  }

  /** `exportTransactionsToExcel(transactions, filename)`: `filename` is None when the caller
      leaves the argument undefined. */
  function ExportTransactionsToExcel(ts: seq<Transaction>, filename: Option<string>): (wb: Workbook)
    ensures |wb.sheets| == 2
    ensures wb.sheets[0].name == CreditSheetName && wb.sheets[1].name == DebitSheetName
    ensures wb.sheets[0].rows == ToRows(Credits(ts)) && wb.sheets[1].rows == ToRows(Debits(ts))
    ensures filename.None? ==> wb.fileName == "transactions.xlsx"
    ensures filename.Some? ==> wb.fileName == filename.value + ".xlsx"
  {
    var creditSheet := Sheet(CreditSheetName, ToRows(Credits(ts)));
    var debitSheet := Sheet(DebitSheetName, ToRows(Debits(ts)));
    Workbook([creditSheet, debitSheet], filename.GetOr(DefaultFilename) + ".xlsx")
  }

  /** The credit sheet holds a row for exactly the lines with a positive amount and the
      debit sheet one for exactly the lines with a negative amount, each in input order:
      the k-th row of a sheet is the row of the line at the k-th kept position. */
  lemma {:induction false} SheetRowsAreKeptLines(ts: seq<Transaction>)
    ensures var wb := ExportTransactionsToExcel(ts, None);
      && |wb.sheets[0].rows| == |KeptPositions(ts, IsCredit, 0)|
      && (forall k :: 0 <= k < |wb.sheets[0].rows| ==>
            wb.sheets[0].rows[k] == ToRow(ts[KeptPositions(ts, IsCredit, 0)[k]]))
      && |wb.sheets[1].rows| == |KeptPositions(ts, IsDebit, 0)|
      && (forall k :: 0 <= k < |wb.sheets[1].rows| ==>
            wb.sheets[1].rows[k] == ToRow(ts[KeptPositions(ts, IsDebit, 0)[k]]))
  {
    assert ts[0..] == ts;
    FilterAtKeptPositions(ts, IsCredit, 0);
    FilterAtKeptPositions(ts, IsDebit, 0);
  }

  /** Every credit row has a positive amount and every debit row a negative one. */
  lemma SheetAmountSigns(ts: seq<Transaction>, filename: Option<string>)
    ensures var wb := ExportTransactionsToExcel(ts, filename);
      && (forall r :: r in wb.sheets[0].rows ==> r.amount > 0.0)
      && (forall r :: r in wb.sheets[1].rows ==> r.amount < 0.0)
  {
  }

  /** The two sheets together have one row per non-zero line: zero-amount lines are in
      neither sheet, and no line is exported twice. */
  lemma ExportedRowCount(ts: seq<Transaction>, filename: Option<string>)
    ensures var wb := ExportTransactionsToExcel(ts, filename);
      |wb.sheets[0].rows| + |wb.sheets[1].rows| == |ts| - |Zeros(ts)|
    ensures var wb := ExportTransactionsToExcel(ts, filename);
      |wb.sheets[0].rows| + |wb.sheets[1].rows| == |ts| <==> forall i :: 0 <= i < |ts| ==> ts[i].amount != 0.0
  {
    SignPartition(ts);
    NoLineDroppedIffNoZero(ts);
  }
}
