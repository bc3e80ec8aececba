/** Finding the one table of payment lines (`find_line_table`, ar_pipeline/tables/mapping.py:55-108). */
module LineTables {
  import opened Models
  import opened Matching
  import opened Numbers
  import opened Rows

  type Table = seq<seq<string>>

  const MIN_DATA_ROWS: nat := 6
  const HEADER_SCAN: nat := 5

  /** The two label patterns, matched on single cells. */
  datatype Labels = Labels(isTotal: string -> bool, isSubtotal: string -> bool)

  predicate IsFilled(cell: string) { Trim(cell) != "" }

  predicate IsFigure(cell: string) { AmountIn(cell).Some? }

  function FilledCount(row: seq<string>): nat {
    if row == [] then 0 else FilledCount(row[..|row| - 1]) + if IsFilled(row[|row| - 1]) then 1 else 0
  }

  predicate HasFilled(row: seq<string>) { exists i | 0 <= i < |row| :: IsFilled(row[i]) }

  predicate HasFigures(row: seq<string>) { exists i | 0 <= i < |row| :: IsFilled(row[i]) && IsFigure(row[i]) }

  /** Reads like column names: at least three cells and half of them filled, none a figure. */
  predicate IsHeader(row: seq<string>) {
    FilledCount(row) >= 3 && 2 * FilledCount(row) >= |row| && !HasFigures(row)
  }

  predicate Labelled(row: seq<string>, matches: string -> bool) {
    exists i | 0 <= i < |row| :: row[i] != "" && matches(row[i])
  }

  predicate IsTotalRow(row: seq<string>, labels: Labels) {
    Labelled(row, labels.isTotal) && !Labelled(row, labels.isSubtotal)
  }

  /** The rows of a table that are not blank. */
  function FilledRows(table: Table): Table {
    if table == [] then []
    else FilledRows(table[..|table| - 1]) + if HasFilled(table[|table| - 1]) then [table[|table| - 1]] else []
  }

  function FirstFigures(rows: Table, i: nat): (r: nat)
    requires i <= |rows|
    ensures i <= r <= |rows| && (forall k | i <= k < r :: !HasFigures(rows[k])) && (r < |rows| ==> HasFigures(rows[r]))
    decreases |rows| - i
  {
    hide HasFigures;
    if i == |rows| || HasFigures(rows[i]) then i else FirstFigures(rows, i + 1)
  }

  /** The last of the first `n` rows that reads like column names. */
  function LastHeader(rows: Table, n: nat): (r: Option<nat>)
    requires n <= |rows|
    ensures r.Some? ==> r.value < n && IsHeader(rows[r.value])
    ensures forall k | 0 <= k < n && IsHeader(rows[k]) :: r.Some? && k <= r.value
  {
    if n == 0 then None else if IsHeader(rows[n - 1]) then Some(n - 1) else LastHeader(rows, n - 1)
  }

  function HeaderAt(rows: Table): Option<nat> {
    var figures := FirstFigures(rows, 0);
    LastHeader(rows, if HEADER_SCAN < figures then HEADER_SCAN else figures)
  }

  function LastTotal(body: Table, labels: Labels, n: nat): (r: Option<nat>)
    requires n <= |body|
    ensures r.Some? ==> r.value < n && IsTotalRow(body[r.value], labels)
    ensures forall k | 0 <= k < n && IsTotalRow(body[k], labels) :: r.Some? && k <= r.value
  {
    if n == 0 then None else if IsTotalRow(body[n - 1], labels) then Some(n - 1) else LastTotal(body, labels, n - 1)
  }

  /** The rows without a total or subtotal label. */
  function Unlabelled(body: Table, labels: Labels): Table {
    if body == [] then []
    else Unlabelled(body[..|body| - 1], labels)
         + if Labelled(body[|body| - 1], labels.isTotal) then [] else [body[|body| - 1]]
  }

  function FigureCount(rows: Table, col: nat): nat {
    if rows == [] then 0
    else
      var last := rows[|rows| - 1];
      FigureCount(rows[..|rows| - 1], col) + if col < |last| && IsFigure(last[col]) then 1 else 0
  }

  /** How many of the first `n` columns hold figures in at least half the rows. */
  function NumericColumns(rows: Table, n: nat): nat {
    if n == 0 then 0
    else NumericColumns(rows, n - 1) + if rows != [] && 2 * FigureCount(rows, n - 1) >= |rows| then 1 else 0
  }

  function Candidate(table: Table, labels: Labels): Option<LineTable> {
    var rows := FilledRows(table);
    var at := HeaderAt(rows);
    if at.None? then None
    else
      var header, below := rows[at.value], rows[at.value + 1..];
      var total := LastTotal(below, labels, |below|);
      var body := Unlabelled(if total.Some? then below[..total.value] else below, labels);
      if |body| < MIN_DATA_ROWS || NumericColumns(body, |header|) < 2 then None
      else Some(LineTable(header, body, if total.Some? then Some(below[total.value]) else None))
  }

  function Candidates(tables: seq<Table>, labels: Labels): seq<LineTable> {
    if tables == [] then []
    else
      var last := Candidate(tables[|tables| - 1], labels);
      Candidates(tables[..|tables| - 1], labels) + if last.Some? then [last.value] else []
  }

  /** `find_line_table` over the tables of all sources: the line table, if there is exactly one. */
  method FindLineTable(tables: seq<Table>, labels: Labels) returns (r: Option<LineTable>)
    ensures var found := Candidates(tables, labels); r == if |found| == 1 then Some(found[0]) else None
  {
    hide Candidate;
    var found: seq<LineTable> := [];
    for i := 0 to |tables|
      invariant found == Candidates(tables[..i], labels)
    {
      assert tables[..i + 1][..i] == tables[..i];
      var table := ReadTable(tables[i], labels);
      if table.Some? {
        found := found + [table.value];
      }
    }
    assert tables[..|tables|] == tables;
    return if |found| == 1 then Some(found[0]) else None;
  }

  method ReadTable(table: Table, labels: Labels) returns (r: Option<LineTable>)
    ensures r == Candidate(table, labels)
  {
    hide IsHeader, Labelled, HasFigures, IsFigure;
    var rows := FilledRows(table);
    var at := HeaderAt(rows);
    if at.None? {
      return None;
    }
    var header, body := rows[at.value], rows[at.value + 1..];
    ghost var below := body;
    var last: int := -1;
    for i := 0 to |body|
      invariant -1 <= last < i
      invariant LastTotal(body, labels, i) == if last >= 0 then Some(last as nat) else None
    {
      if Labelled(body[i], labels.isTotal) && !Labelled(body[i], labels.isSubtotal) {
        last := i;
      }
    }
    var total: Option<seq<string>> := None;
    if last >= 0 {
      total := Some(body[last]);
      body := body[..last]; // rows after the total are notes or the amount in words
    }
    var kept := DropLabelled(body, labels);
    if |kept| < MIN_DATA_ROWS {
      return None;
    }
    var numeric := CountNumeric(kept, |header|);
    if numeric < 2 {
      return None;
    }
    return Some(LineTable(header, kept, total));
  }

  method DropLabelled(body: Table, labels: Labels) returns (kept: Table)
    ensures kept == Unlabelled(body, labels)
  {
    hide Labelled;
    kept := [];
    for i := 0 to |body|
      invariant kept == Unlabelled(body[..i], labels)
    {
      assert body[..i + 1][..i] == body[..i];
      if !Labelled(body[i], labels.isTotal) {
        kept := kept + [body[i]];
      }
    }
    assert body[..|body|] == body;
  }

  method CountNumeric(rows: Table, width: nat) returns (n: nat)
    ensures n == NumericColumns(rows, width)
  {
    hide FigureCount;
    n := 0;
    for i := 0 to width
      invariant n == NumericColumns(rows, i)
    {
      if rows != [] && 2 * FigureCount(rows, i) >= |rows| {
        n := n + 1;
      }
    }
  }

  // ----- what a line table is -----

  /** `part` is `whole` with some rows left out. */
  ghost predicate Picks(part: Table, whole: Table, at: seq<nat>) {
    && |at| == |part| && (forall i | 0 <= i < |at| :: at[i] < |whole| && part[i] == whole[at[i]])
    && (forall i, j | 0 <= i < j < |at| :: at[i] < at[j])
  }

  lemma {:induction false} UnlabelledPicks(body: Table, labels: Labels) returns (at: seq<nat>)
    ensures Picks(Unlabelled(body, labels), body, at)
    ensures forall k :: k in at <==> 0 <= k < |body| && !Labelled(body[k], labels.isTotal)
  {
    hide Labelled;
    at := [];
    if body != [] {
      at := UnlabelledPicks(body[..|body| - 1], labels);
      if !Labelled(body[|body| - 1], labels.isTotal) { at := at + [|body| - 1]; }
    }
  }

  /** A line table is cut from its source in order: the header is the last row of column names above all
      figures, the total row is the last row labelled so below it, and the lines are exactly the rows
      between the two that carry no total label. No figure stands above the header. */
  lemma CandidateIs(table: Table, labels: Labels) returns (h: nat, end: nat, at: seq<nat>)
    requires Candidate(table, labels).Some?
    ensures var t, rows := Candidate(table, labels).value, FilledRows(table);
      && h < end <= |rows| && t.header == rows[h] && IsHeader(t.header)
      && (forall k | 0 <= k < h :: !HasFigures(rows[k]))
      && (t.totalRow.Some? ==> end < |rows| && t.totalRow.value == rows[end] && IsTotalRow(rows[end], labels))
      && (t.totalRow.None? ==> end == |rows|)
      && (forall k | end < k < |rows| :: !IsTotalRow(rows[k], labels))
      && Picks(t.rows, rows[h + 1..end], at)
      && (forall k :: k in at <==> 0 <= k < end - h - 1 && !Labelled(rows[h + 1 + k], labels.isTotal))
      && |t.rows| >= MIN_DATA_ROWS
  {
    hide IsHeader, Labelled, HasFigures, NumericColumns, FilledRows, LastHeader, LastTotal, Unlabelled;
    var rows := FilledRows(table);
    h := HeaderAt(rows).value;
    var below := rows[h + 1..];
    var total := LastTotal(below, labels, |below|);
    end := if total.Some? then h + 1 + total.value else |rows|;
    var body := rows[h + 1..end];
    assert body == if total.Some? then below[..total.value] else below;
    at := UnlabelledPicks(body, labels);
    hide Picks;
    assert forall k | 0 <= k < |body| :: body[k] == rows[h + 1 + k];
    forall k | end < k < |rows| ensures !IsTotalRow(rows[k], labels) {
      assert rows[k] == below[k - h - 1];
    }
  }
}
