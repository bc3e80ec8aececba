/** Rejoining tables that continue on the next page (ar_pipeline/extract/pdf.py:20-69). */
module PdfTables {
  import opened Models
  import opened Numbers

  type Line = seq<string>
  type Table = seq<Line>

  /** Fragments of one word are joined; fragments with spaces keep one. */
  function Glue(a: string, b: string): string {
    if a == "" then b
    else if b == "" then a
    else if ' ' in a || ' ' in b then a + " " + b
    else a + b
  }

  predicate IsFilled(row: Line, i: nat) { i < |row| && row[i] != "" }

  function FilledCount(row: Line): nat {
    if row == [] then 0 else FilledCount(row[..|row| - 1]) + if row[|row| - 1] != "" then 1 else 0
  }

  /** A fragment that fits under a filled cell that is no figure; `isTotal` matches total labels. */
  predicate Continues(cell: string, prev: Line, i: nat, isTotal: string -> bool) {
    && ' ' !in cell && |cell| <= 12 && IsFilled(prev, i) && AmountIn(prev[i]).None? && !isTotal(cell)
  }

  /** Few cells are filled, and each continues the one above it. */
  predicate IsContinuation(row: Line, prev: Line, isTotal: string -> bool) {
    && FilledCount(row) > 0 && FilledCount(row) * 3 <= |row|
    && forall i | 0 <= i < |row| && row[i] != "" :: Continues(row[i], prev, i, isTotal)
  }

  function GlueAt(prev: Line, row: Line, i: nat): string
    requires i < |prev|
  {
    if IsFilled(row, i) then Glue(prev[i], row[i]) else prev[i]
  }

  function Glued(prev: Line, row: Line): (r: Line)
    ensures |r| == |prev| && forall i | 0 <= i < |r| :: r[i] == GlueAt(prev, row, i)
  {
    seq(|prev|, i requires 0 <= i < |prev| => GlueAt(prev, row, i))
  }

  /** `next` continues `last`: the same first row. */
  predicate SameHeader(last: Table, next: Table) { last != [] && next != [] && next[0] == last[0] }

  predicate Breaks(last: Table, rest: Table, isTotal: string -> bool) {
    rest != [] && |last| > 1 && IsContinuation(rest[0], last[|last| - 1], isTotal)
  }

  /** A table with the rows of its continuation, whose repeated header is gone. */
  function Extended(last: Table, rest: Table, isTotal: string -> bool): Table {
    if Breaks(last, rest, isTotal)
    then last[|last| - 1 := Glued(last[|last| - 1], rest[0])] + rest[1..]
    else last + rest
  }

  function MergeOne(merged: seq<Table>, table: Table, isTotal: string -> bool): seq<Table> {
    if merged != [] && SameHeader(merged[|merged| - 1], table)
    then merged[..|merged| - 1] + [Extended(merged[|merged| - 1], table[1..], isTotal)]
    else merged + [table]
  }

  function Merged(tables: seq<Table>, isTotal: string -> bool): seq<Table> {
    if tables == [] then []
    else MergeOne(Merged(tables[..|tables| - 1], isTotal), tables[|tables| - 1], isTotal)
  }

  /** `_merge`. */
  method Merge(tables: seq<Table>, isTotal: string -> bool) returns (merged: seq<Table>)
    ensures merged == Merged(tables, isTotal)
  {
    hide IsContinuation;
    merged := [];
    for n := 0 to |tables|
      invariant merged == Merged(tables[..n], isTotal)
    {
      assert tables[..n + 1][..n] == tables[..n];
      var table := tables[n];
      if merged != [] && SameHeader(merged[|merged| - 1], table) {
        var last, rest := merged[|merged| - 1], table[1..];
        if rest != [] && |last| > 1 && IsContinuation(rest[0], last[|last| - 1], isTotal) {
          var prev := GlueRow(last[|last| - 1], rest[0]);
          last := last[|last| - 1 := prev];
          rest := rest[1..];
        }
        assert merged[|merged| - 1 := last + rest] == merged[..|merged| - 1] + [last + rest];
        merged := merged[|merged| - 1 := last + rest];
      } else {
        merged := merged + [table];
      }
    }
    assert tables[..|tables|] == tables;
  }

  method GlueRow(prev0: Line, row: Line) returns (prev: Line)
    ensures prev == Glued(prev0, row)
  {
    hide Glue;
    prev := prev0;
    for i := 0 to |row|
      invariant |prev| == |prev0|
      invariant forall j | 0 <= j < |prev| :: prev[j] == if j < i then GlueAt(prev0, row, j) else prev0[j]
    {
      if row[i] != "" && i < |prev| {
        prev := prev[i := Glue(prev[i], row[i])];
      }
    }
  }

  // ----- no cell's text is lost -----

  function CellText(row: Line, col: nat): string { if col < |row| then Remove(row[col], ' ') else "" }

  /** The text down a column, spaces aside. */
  function ColumnText(rows: Table, col: nat): string {
    if rows == [] then "" else ColumnText(rows[..|rows| - 1], col) + CellText(rows[|rows| - 1], col)
  }

  function AllRows(tables: seq<Table>): Table {
    if tables == [] then [] else AllRows(tables[..|tables| - 1]) + tables[|tables| - 1]
  }

  /** The first row of the table that the next one would continue. */
  function CurrentHeader(tables: seq<Table>): Option<Line> {
    if tables == [] then None else FirstOf(tables[|tables| - 1])
  }

  function FirstOf(table: Table): Option<Line> { if table == [] then None else Some(table[0]) }

  /** All rows in order, without the headers that repeat the one of the table before. */
  function DistinctRows(tables: seq<Table>): Table {
    if tables == [] then []
    else
      var front, table := tables[..|tables| - 1], tables[|tables| - 1];
      DistinctRows(front) + if table != [] && CurrentHeader(front) == Some(table[0]) then table[1..] else table
  }

  lemma OneSpace()
    ensures Remove(" ", ' ') == "" && Remove("", ' ') == ""
  {
    assert " "[1..] == "";
  }

  lemma GlueText(a: string, b: string)
    ensures Remove(Glue(a, b), ' ') == Remove(a, ' ') + Remove(b, ' ')
  {
    hide Remove;
    OneSpace();
    if a != "" && b != "" {
      if ' ' in a || ' ' in b {
        RemoveConcat(a + " ", b, ' ');
        RemoveConcat(a, " ", ' ');
      } else {
        RemoveConcat(a, b, ' ');
      }
    }
  }

  /** A fragment row glued under the cells it continues keeps each column's text. */
  lemma GluedText(prev: Line, row: Line, isTotal: string -> bool, col: nat)
    requires IsContinuation(row, prev, isTotal)
    ensures CellText(Glued(prev, row), col) == CellText(prev, col) + CellText(row, col)
  {
    hide Remove, Glue, FilledCount;
    OneSpace();
    if IsFilled(row, col) {
      assert Continues(row[col], prev, col, isTotal);
      GlueText(prev[col], row[col]);
    }
  }

  lemma {:induction false} ColumnConcat(a: Table, b: Table, col: nat)
    ensures ColumnText(a + b, col) == ColumnText(a, col) + ColumnText(b, col)
  {
    hide CellText;
    if b == [] {
      assert a + b == a;
    } else {
      var n := |b| - 1;
      assert (a + b)[..|a + b| - 1] == a + b[..n];
      ColumnConcat(a, b[..n], col);
    }
  }

  lemma ColumnOne(row: Line, col: nat)
    ensures ColumnText([row], col) == CellText(row, col)
  {
    assert [row][..0] == [];
  }

  lemma ExtendedText(last: Table, rest: Table, isTotal: string -> bool, col: nat)
    ensures ColumnText(Extended(last, rest, isTotal), col) == ColumnText(last + rest, col)
  {
    hide CellText, ColumnText, Glued, IsContinuation;
    if Breaks(last, rest, isTotal) {
      var n := |last| - 1;
      var front, prev, more := last[..n], last[n], rest[1..];
      assert last + rest == front + ([prev] + ([rest[0]] + more));
      assert Extended(last, rest, isTotal) == front + ([Glued(prev, rest[0])] + more);
      ColumnConcat(front, [prev] + ([rest[0]] + more), col);
      ColumnConcat([prev], [rest[0]] + more, col);
      ColumnConcat([rest[0]], more, col);
      ColumnConcat(front, [Glued(prev, rest[0])] + more, col);
      ColumnConcat([Glued(prev, rest[0])], more, col);
      ColumnOne(prev, col);
      ColumnOne(rest[0], col);
      ColumnOne(Glued(prev, rest[0]), col);
      GluedText(prev, rest[0], isTotal, col);
    }
  }

  lemma AllRowsOf(front: seq<Table>, last: Table)
    ensures AllRows(front + [last]) == AllRows(front) + last
  {
    assert (front + [last])[..|front|] == front;
  }

  lemma ExtendedHeader(last: Table, rest: Table, isTotal: string -> bool)
    requires last != []
    ensures Extended(last, rest, isTotal) != [] && Extended(last, rest, isTotal)[0] == last[0]
  {
    hide Glued, IsContinuation;
  }

  /** The header of the table being built is never touched. */
  lemma {:induction false} HeaderKept(tables: seq<Table>, isTotal: string -> bool)
    ensures var merged := Merged(tables, isTotal);
      && (merged == [] <==> tables == [])
      && CurrentHeader(tables) == if merged == [] then None else FirstOf(merged[|merged| - 1])
  {
    hide Extended;
    if tables != [] {
      var front, table := tables[..|tables| - 1], tables[|tables| - 1];
      HeaderKept(front, isTotal);
      var merged := Merged(front, isTotal);
      if merged != [] && SameHeader(merged[|merged| - 1], table) {
        ExtendedHeader(merged[|merged| - 1], table[1..], isTotal);
      }
    }
  }

  /** Merging loses no text: down every column the merged tables read as the pages do, spaces and repeated
      headers aside. */
  lemma {:induction false} MergeLosesNothing(tables: seq<Table>, isTotal: string -> bool, col: nat)
    ensures ColumnText(AllRows(Merged(tables, isTotal)), col) == ColumnText(DistinctRows(tables), col)
  {
    hide ColumnText, Extended;
    if tables != [] {
      var front, table := tables[..|tables| - 1], tables[|tables| - 1];
      var merged := Merged(front, isTotal);
      MergeLosesNothing(front, isTotal, col);
      HeaderKept(front, isTotal);
      if merged != [] && SameHeader(merged[|merged| - 1], table) {
        var n := |merged| - 1;
        var before, last, rest := merged[..n], merged[n], table[1..];
        assert merged == before + [last];
        AllRowsOf(before, last);
        AllRowsOf(before, Extended(last, rest, isTotal));
        ExtendedText(last, rest, isTotal, col);
        ColumnConcat(AllRows(before), last, col);
        ColumnConcat(AllRows(before), Extended(last, rest, isTotal), col);
        ColumnConcat(last, rest, col);
        ColumnConcat(DistinctRows(front), rest, col);
      } else {
        AllRowsOf(merged, table);
        ColumnConcat(AllRows(merged), table, col);
        ColumnConcat(DistinctRows(front), table, col);
      }
    }
  }
}
