/** The transactions table: one displayed row per line, in the order given, with the sign
    prefix, colour and badge derived from the amount and the is_direct flag. */
module Table {
  import opened Wrappers
  import opened Transactions
  import Export
  import Stats

  datatype Color = Green | Red
  datatype Palette = Blue | Purple

  /** A rendered row before currency formatting: `key` is the position in the list, the
      amount cell shows `sign` followed by `magnitude`. */
  datatype DisplayRow = DisplayRow(
    key: nat,
    date: string,
    transaction: string,
    description: string,
    sign: string,
    color: Color,
    magnitude: real,
    badge: string,
    palette: Palette)

  /** The cells of the row for line t at position i. A null or absent description renders
      as no text. */
  function RenderRow(t: Transaction, i: nat): (row: DisplayRow)
    ensures row.key == i && row.date == t.date && row.transaction == t.transaction
    ensures row.sign == "+" <==> t.amount > 0.0
    ensures row.sign == "-" <==> t.amount <= 0.0
    ensures row.color == Green <==> t.amount > 0.0
    ensures row.magnitude >= 0.0
    ensures row.badge == "DIRECT" <==> t.isDirect
    ensures row.badge == "TOYYIBPAY" <==> !t.isDirect
    ensures row.palette == Blue <==> t.isDirect
  {
    DisplayRow(
      i,
      t.date,
      t.transaction,
      t.description.GetOr(""),
      if t.amount > 0.0 then "+" else "-",
      if t.amount > 0.0 then Green else Red,
      Stats.Abs(t.amount),
      if t.isDirect then "DIRECT" else "TOYYIBPAY",
      if t.isDirect then Blue else Purple)
  }

  /** `transactions.map((t, i) => ...)` for the lines from position `start` on. */
  function RenderFrom(ts: seq<Transaction>, start: nat): (rows: seq<DisplayRow>)
    ensures |rows| == |ts|
    ensures forall i :: 0 <= i < |ts| ==> rows[i] == RenderRow(ts[i], start + i)
  {
    if ts == [] then [] else [RenderRow(ts[0], start)] + RenderFrom(ts[1..], start + 1)
  }

  /** The table body: exactly one row per line, keyed by its position. */
  function TransactionsTable(ts: seq<Transaction>): (rows: seq<DisplayRow>)
    ensures |rows| == |ts|
    ensures forall i :: 0 <= i < |ts| ==> rows[i] == RenderRow(ts[i], i)
  {
    RenderFrom(ts, 0)
  }

  /** The signed value the amount cell reads as. */
  function ShownValue(row: DisplayRow): real
  {
    if row.sign == "+" then row.magnitude else -row.magnitude
  }

  /** The sign appears only through the prefix, and prefix and magnitude together give back
      the amount back, zero included (shown as "-" and 0). */
  lemma {:induction false} ShownValueRoundTrip(t: Transaction, i: nat)
    ensures ShownValue(RenderRow(t, i)) == t.amount
  {
  }

  /** A zero amount is shown like a debit: "-", red, magnitude 0. */
  lemma ZeroShownAsDebit(t: Transaction, i: nat)
    requires t.amount == 0.0
    ensures RenderRow(t, i).sign == "-" && RenderRow(t, i).color == Red && RenderRow(t, i).magnitude == 0.0
  {
  }

  /** The table and the export agree on each line's date, transaction, description text, signed
      amount and category label. */
  lemma TableAgreesWithExport(ts: seq<Transaction>)
    ensures forall i :: 0 <= i < |ts| ==>
      var shown, exported := TransactionsTable(ts)[i], Export.ToRows(ts)[i];
      && shown.date == exported.date
      && shown.transaction == exported.transaction
      && shown.description == exported.description
      && shown.badge == exported.category
      && ShownValue(shown) == exported.amount
  {
  }
}
