/**
 * The two worksheets of the openpyxl workbook as cell maps keyed by
 * (row, column), both 1-based, plus the set of main-sheet cells that carry
 * the blue "edge" fill.  Styling, widths and saving are not modelled.
 */
module Sheet {
  import opened Py

  type Cell = (int, int)

  /** Writing `cells` left to right into `row`, starting at column `col`:
      the effect of one `cell(row, col + j).value = cells[j]` per element. */
  function PlaceRow(m: map<Cell, Value>, row: int, col: int, cells: seq<Value>): map<Cell, Value>
    decreases |cells|
  {
    if cells == [] then m
    else PlaceRow(m, row, col, cells[..|cells| - 1])[(row, col + |cells| - 1) := cells[|cells| - 1]]
  }

  /** Each written column holds its element of `cells`. */
  lemma {:induction false} PlaceRowWritten(m: map<Cell, Value>, row: int, col: int, cells: seq<Value>, j: int)
    requires 0 <= j < |cells|
    ensures (row, col + j) in PlaceRow(m, row, col, cells)
    ensures PlaceRow(m, row, col, cells)[(row, col + j)] == cells[j]
    decreases |cells|
  {
    if j < |cells| - 1 {
      PlaceRowWritten(m, row, col, cells[..|cells| - 1], j);
    }
  }

  /** Every cell outside the written span keeps its old value. */
  lemma {:induction false} PlaceRowKeeps(m: map<Cell, Value>, row: int, col: int, cells: seq<Value>, k: Cell)
    requires k.0 != row || k.1 < col || col + |cells| <= k.1
    ensures k in PlaceRow(m, row, col, cells) <==> k in m
    ensures k in m ==> PlaceRow(m, row, col, cells)[k] == m[k]
    decreases |cells|
  {
    if cells != [] {
      PlaceRowKeeps(m, row, col, cells[..|cells| - 1], k);
    }
  }

  /** The whole row write as one statement: the cells of the span and nothing else change. */
  lemma {:induction false} PlaceRowCells(m: map<Cell, Value>, row: int, col: int, cells: seq<Value>)
    ensures forall c :: col <= c < col + |cells| ==>
      (row, c) in PlaceRow(m, row, col, cells) && PlaceRow(m, row, col, cells)[(row, c)] == cells[c - col]
    ensures forall k: Cell :: (k.0 != row || k.1 < col || col + |cells| <= k.1) ==>
      (k in PlaceRow(m, row, col, cells) <==> k in m) &&
      (k in m ==> PlaceRow(m, row, col, cells)[k] == m[k])
  {
    forall c | col <= c < col + |cells|
      ensures (row, c) in PlaceRow(m, row, col, cells) && PlaceRow(m, row, col, cells)[(row, c)] == cells[c - col]
    {
      PlaceRowWritten(m, row, col, cells, c - col);
    }
    forall k: Cell | k.0 != row || k.1 < col || col + |cells| <= k.1
      ensures (k in PlaceRow(m, row, col, cells) <==> k in m) &&
        (k in m ==> PlaceRow(m, row, col, cells)[k] == m[k])
    {
      PlaceRowKeeps(m, row, col, cells, k);
    }
  }

  /** opt `writeToSheet` / `writeToSummary` on a cell map: `''` is not written. */
  function Put(m: map<Cell, Value>, row: int, col: int, v: Value): map<Cell, Value> {
    if v == VStr("") then m else m[(row, col) := v]
  }

  /** `Put` leaves the map as it is for `''`, and otherwise sets exactly cell
      (row, col): every other cell keeps whether it is present and its value. */
  lemma {:induction false} PutCell(m: map<Cell, Value>, row: int, col: int, v: Value, k: Cell)
    ensures v == VStr("") ==> Put(m, row, col, v) == m
    ensures v != VStr("") ==> (row, col) in Put(m, row, col, v) && Put(m, row, col, v)[(row, col)] == v
    ensures k != (row, col) ==> (k in Put(m, row, col, v) <==> k in m)
    ensures k != (row, col) && k in m ==> Put(m, row, col, v)[k] == m[k]
  {
  }

  /** The set of cells of `row` from column `lo` up to column `hi`, both inclusive. */
  function Span(row: int, lo: int, hi: int): set<Cell> {
    set c | lo <= c <= hi :: (row, c)
  }

  class Workbook {
    /** "Property Bandwidths" */
    var main: map<Cell, Value>
    /** "Summaries" */
    var summary: map<Cell, Value>
    /** main-sheet cells with the 8EA9DB fill */
    var fills: set<Cell>

    constructor ()
      ensures main == map[] && summary == map[] && fills == {}
    {
      main := map[];
      summary := map[];
      fills := {};
    }

    /** main.py `write_XLSX`: exactly one main-sheet cell changes. */
    method WriteXlsx(row: int, col: int, v: Value)
      modifies this
      ensures main == old(main)[(row, col) := v]
      ensures summary == old(summary) && fills == old(fills)
    {
      main := main[(row, col) := v];
    }

    /** main.py `write_XLSX_seg`: exactly one summary cell changes. */
    method WriteXlsxSeg(row: int, col: int, v: Value)
      modifies this
      ensures summary == old(summary)[(row, col) := v]
      ensures main == old(main) && fills == old(fills)
    {
      summary := summary[(row, col) := v];
    }

    /** opt `writeToSheet`: an empty string is not written; anything else sets one cell. */
    method WriteToSheet(row: int, col: int, v: Value)
      modifies this
      ensures v == VStr("") ==> main == old(main)
      ensures v != VStr("") ==> main == old(main)[(row, col) := v]
      ensures main == Put(old(main), row, col, v)
      ensures summary == old(summary) && fills == old(fills)
    {
      if v != VStr("") {
        main := main[(row, col) := v];
      }
    }

    /** opt `writeToSummary`: the same rule on the summary sheet. */
    method WriteToSummary(row: int, col: int, v: Value)
      modifies this
      ensures v == VStr("") ==> summary == old(summary)
      ensures v != VStr("") ==> summary == old(summary)[(row, col) := v]
      ensures summary == Put(old(summary), row, col, v)
      ensures main == old(main) && fills == old(fills)
    {
      if v != VStr("") {
        summary := summary[(row, col) := v];
      }
    }

    /** Setting the blue fill on one main-sheet cell. */
    method Fill(row: int, col: int)
      modifies this
      ensures fills == old(fills) + {(row, col)}
      ensures main == old(main) && summary == old(summary)
    {
      fills := fills + {(row, col)};
    }

    /** Writing `cells` into main-sheet `row` from column `col` on, one `write_XLSX` per element. */
    method WriteMainRow(row: int, col: int, cells: seq<Value>)
      modifies this
      ensures main == PlaceRow(old(main), row, col, cells)
      ensures summary == old(summary) && fills == old(fills)
    {
      var i := 0;
      while i < |cells|
        invariant 0 <= i <= |cells|
        invariant main == PlaceRow(old(main), row, col, cells[..i])
        invariant summary == old(summary) && fills == old(fills)
      {
        assert cells[..i + 1][..i] == cells[..i];
        WriteXlsx(row, col + i, cells[i]);
        i := i + 1;
      }
      assert cells[..i] == cells;
    }

    /** The same on the summary sheet, one `write_XLSX_seg` per element. */
    method WriteSummaryRow(row: int, col: int, cells: seq<Value>)
      modifies this
      ensures summary == PlaceRow(old(summary), row, col, cells)
      ensures main == old(main) && fills == old(fills)
    {
      var i := 0;
      while i < |cells|
        invariant 0 <= i <= |cells|
        invariant summary == PlaceRow(old(summary), row, col, cells[..i])
        invariant main == old(main) && fills == old(fills)
      {
        assert cells[..i + 1][..i] == cells[..i];
        WriteXlsxSeg(row, col + i, cells[i]);
        i := i + 1;
      }
      assert cells[..i] == cells;
    }

    /** The edge loop: `while edge_count <= last`, filling columns 1..last of `row`. */
    method FillRow(row: int, last: int)
      requires last >= 0
      modifies this
      ensures fills == old(fills) + Span(row, 1, last)
      ensures main == old(main) && summary == old(summary)
    {
      var c := 1;
      while c <= last
        invariant 1 <= c <= last + 1
        invariant fills == old(fills) + Span(row, 1, c - 1)
        invariant main == old(main) && summary == old(summary)
      {
        Fill(row, c);
        c := c + 1;
      }
    }
  }
}
