/**
 * The journal file's column layout and the backfill applied when a journal
 * written by an older version lacks some of the columns.
 */
module JournalFile {
  import opened Planner

  /** The journal's columns, in file order. */
  const JOURNAL_COLUMNS: seq<string> :=
    ["Date", "Pair", "Direction", "Entry", "Exit", "SL", "TP", "Lot_Size",
     "P/L (Pips)", "P/L ($)", "Outcome", "Reason", "Review"]

  /** One cell of the loaded table. */
  datatype Cell = Num(x: real) | Text(s: string)

  /** A table as loaded: column name to the column's cells, one per row. */
  type Table = map<string, seq<Cell>>

  /**
   * The value a missing column is filled with: 0.0 for a column whose name
   * contains "P/L" and for Lot_Size, the empty string for every other column.
   */
  function FillValue(column: string): (c: Cell)
    ensures c == Num(0.0) <==> (exists i: nat :: OccursAt(column, "P/L", i)) || column == "Lot_Size"
    ensures c != Num(0.0) ==> c == Text("")
  {
    ContainsIffOccurs(column, "P/L");
    if Contains(column, "P/L") || column == "Lot_Size" then Num(0.0) else Text("")
  }

  /** A column of `rows` copies of `c`. */
  function Filled(rows: nat, c: Cell): (col: seq<Cell>)
    ensures |col| == rows && forall k :: 0 <= k < rows ==> col[k] == c
  {
    seq(rows, _ => c)
  }

  /**
   * The load-time backfill: every required column the table lacks is added,
   * filled with its fill value on each of the `rows` rows; the columns the
   * table has are kept as they are. The journal loader passes
   * JOURNAL_COLUMNS as `required`.
   */
  method Backfill(table: Table, rows: nat, required: seq<string>) returns (filled: Table)
    ensures filled.Keys == table.Keys + set c | c in required
    ensures forall c :: c in table ==> filled[c] == table[c]
    ensures forall c :: c in required && c !in table ==> filled[c] == Filled(rows, FillValue(c))
  {
    filled := table;
    var k := 0;
    while k < |required|
      invariant 0 <= k <= |required|
      invariant filled.Keys == table.Keys + set c | c in required[..k]
      invariant forall c :: c in table ==> filled[c] == table[c]
      invariant forall c :: c in required[..k] && c !in table ==> filled[c] == Filled(rows, FillValue(c))
    {
      var column := required[k];
      if column !in filled {
        filled := filled[column := Filled(rows, FillValue(column))];
      }
      assert required[..k + 1] == required[..k] + [column];
      k := k + 1;
    }
    assert required[..k] == required;
  }

  /** Of the journal's columns, exactly Lot_Size and the two P/L columns are filled with 0.0. */
  lemma NumericJournalColumns()
    ensures forall c :: c in JOURNAL_COLUMNS ==>
      (FillValue(c) == Num(0.0) <==> c == "Lot_Size" || c == "P/L (Pips)" || c == "P/L ($)")
  {
    forall c | c in JOURNAL_COLUMNS && c != "Lot_Size" && c != "P/L (Pips)" && c != "P/L ($)"
      ensures FillValue(c) == Text("")
    {
      MissingCharNoOccurrence(c, "P/L", 1);
    }
    assert OccursAt("P/L (Pips)", "P/L", 0) && OccursAt("P/L ($)", "P/L", 0);
  }
}
