/** Reading a table's rows in code (ar_pipeline/tables/mapping.py, second half). */
module Rows {
  import opened Models
  import opened Matching
  import opened Numbers
  import opened Columns
  import opened Validators

  /** The one table of payment lines: its header, its rows, and the row labelled as the total. */
  datatype LineTable = LineTable(header: seq<string>, rows: seq<seq<string>>, totalRow: Option<seq<string>>)

  /** `totals` are the figures of the total row by column role. */
  datatype MappedTable = MappedTable(lines: seq<LineItem>, totals: map<Role, Money>)

  const TOTALS_TOLERANCE: Money := 100

  function Cell(row: seq<string>, cols: ColumnMap, role: Role): string {
    if role in cols && cols[role] < |row| then Trim(row[cols[role]]) else ""
  }

  function AmountAt(row: seq<string>, cols: ColumnMap, role: Role): Option<Money> {
    var d := AmountIn(Cell(row, cols, role));
    if d.Some? then Some(ToPaise(d.value)) else None
  }

  function OrZero(amount: Option<Money>): Money { if amount.Some? then amount.value else 0 }

  function SizeAt(row: seq<string>, cols: ColumnMap, role: Role): nat { Abs(OrZero(AmountAt(row, cols, role))) }

  // ----- one row -----

  /** The figures of a row. */
  datatype Figures = Figures(gross: Option<Money>, paid: Option<Money>, tds: nat, adjustment: nat, other: nat)

  function FiguresOf(row: seq<string>, cols: ColumnMap): Figures {
    Figures(AmountAt(row, cols, Gross), AmountAt(row, cols, Net),
            SizeAt(row, cols, TdsRole), SizeAt(row, cols, AdjustmentRole), SizeAt(row, cols, OtherDeduction))
  }

  /** A heading or note row, or blank padding. */
  predicate IsNoise(number: string, f: Figures) {
    || (f.gross.None? && f.paid.None? && f.adjustment == 0)
    || (number == "" && OrZero(f.gross) == 0 && OrZero(f.paid) == 0 && f.tds == 0 && f.adjustment == 0 && f.other == 0)
  }

  predicate IsReduction(f: Figures) {
    OrZero(f.paid) < 0 || OrZero(f.gross) < 0 || (OrZero(f.gross) == 0 && f.adjustment > 0)
  }

  /** What a reduction takes off. */
  function ReductionAmount(f: Figures): nat {
    if f.adjustment > 0 then f.adjustment
    else if OrZero(f.gross) != 0 then Abs(OrZero(f.gross))
    else Abs(OrZero(f.paid))
  }

  function ReductionKind(number: string): DeductionType {
    if Contains(Upper(number), "DISC") then Discount else DebitNote
  }

  function DeductionsOf(f: Figures): seq<Deduction> {
    (if f.tds > 0 then [Deduction(Tds, f.tds)] else [])
    + (if f.adjustment > 0 then [Deduction(AdvanceAdjustment, f.adjustment)] else [])
    + (if f.other > 0 then [Deduction(DeductionType.Other, f.other)] else [])
  }

  function ReductionLine(number: string, day: Option<Date>, amount: nat): LineItem {
    LineItem(number, day, 0, [Deduction(ReductionKind(number), amount)], 0 - amount, AdjustmentLine, "")
  }

  function InvoiceLineOf(number: string, day: Option<Date>, f: Figures): LineItem {
    var deducted := f.tds + f.adjustment + f.other;
    var gross := if f.gross.Some? then f.gross.value else OrZero(f.paid) + deducted;
    LineItem(number, day, gross, DeductionsOf(f),
             if f.paid.Some? then f.paid.value else gross - deducted, InvoiceLine, "")
  }

  /** The line a row gives, if any. `dates` reads a date cell. */
  function LineOf(row: seq<string>, cols: ColumnMap, dates: string -> Option<Date>): Option<LineItem> {
    var number, f := Cell(row, cols, Number), FiguresOf(row, cols);
    var day := dates(Cell(row, cols, DateRole));
    if IsNoise(number, f) then None
    else if IsReduction(f) then
      if ReductionAmount(f) == 0 then None else Some(ReductionLine(number, day, ReductionAmount(f)))
    else Some(InvoiceLineOf(number, day, f))
  }

  method ReadRow(row: seq<string>, cols: ColumnMap, dates: string -> Option<Date>) returns (r: Option<LineItem>)
    ensures r == LineOf(row, cols, dates)
  {
    hide Cell, AmountAt, SizeAt;
    var number := Cell(row, cols, Number);
    var gross, paid := AmountAt(row, cols, Gross), AmountAt(row, cols, Net);
    var tds, adj, other := SizeAt(row, cols, TdsRole), SizeAt(row, cols, AdjustmentRole),
      SizeAt(row, cols, OtherDeduction);
    if gross.None? && paid.None? && adj == 0 {
      return None; // a heading or note row
    }
    if number == "" && OrZero(gross) == 0 && OrZero(paid) == 0 && tds == 0 && adj == 0 && other == 0 {
      return None; // blank padding
    }
    var day := dates(Cell(row, cols, DateRole));
    var negative := (paid.Some? && paid.value < 0) || (gross.Some? && gross.value < 0);
    if negative || ((gross.None? || gross.value == 0) && adj > 0) {
      var amount: nat := 0;
      if adj > 0 {
        amount := adj;
      } else if gross.Some? && gross.value != 0 {
        amount := Abs(gross.value);
      } else {
        amount := Abs(OrZero(paid));
      }
      if amount == 0 {
        return None;
      }
      return Some(ReductionLine(number, day, amount));
    }
    var deductions: seq<Deduction> := [];
    if tds > 0 { deductions := deductions + [Deduction(Tds, tds)]; }
    if adj > 0 { deductions := deductions + [Deduction(AdvanceAdjustment, adj)]; }
    if other > 0 { deductions := deductions + [Deduction(DeductionType.Other, other)]; }
    var f := Figures(gross, paid, tds, adj, other);
    assert deductions == DeductionsOf(f);
    var total := tds + adj + other;
    var invoiceAmount := if gross.Some? then gross.value else OrZero(paid) + total;
    var amountPaid := if paid.Some? then paid.value else invoiceAmount - total;
    return Some(LineItem(number, day, invoiceAmount, deductions, amountPaid, InvoiceLine, ""));
  }

  // ----- what a line read from a row is -----

  /** An adjustment invoices nothing and pays back exactly its one positive deduction; an invoice line's
      amount is not negative. */
  predicate IsWellRead(line: LineItem) {
    && line.appliesTo == ""
    && (line.kind == AdjustmentLine ==>
          line.invoiceAmount == 0 && |line.deductions| == 1 && line.deductions[0].amount > 0
          && line.paid == 0 - line.deductions[0].amount)
    && (line.kind == InvoiceLine ==> line.invoiceAmount >= 0)
  }

  lemma DeductedOf(f: Figures)
    ensures Deducted(DeductionsOf(f)) == f.tds + f.adjustment + f.other
  {
    var a := if f.tds > 0 then [Deduction(Tds, f.tds)] else [];
    var b := if f.adjustment > 0 then [Deduction(AdvanceAdjustment, f.adjustment)] else [];
    var c := if f.other > 0 then [Deduction(DeductionType.Other, f.other)] else [];
    assert DeductionsOf(f) == a + b + c;
    DeductedConcat(a + b, c);
    DeductedConcat(a, b);
    OneDeducted(Tds, f.tds);
    OneDeducted(AdvanceAdjustment, f.adjustment);
    OneDeducted(DeductionType.Other, f.other);
  }

  lemma OneDeducted(reason: DeductionType, amount: nat)
    ensures Deducted([Deduction(reason, amount)]) == amount && Deducted([]) == 0
  {
    assert [Deduction(reason, amount)][1..] == [];
  }

  lemma {:induction false} DeductedConcat(a: seq<Deduction>, b: seq<Deduction>)
    ensures Deducted(a + b) == Deducted(a) + Deducted(b)
  {
    if a == [] {
      assert a + b == b;
    } else {
      DeductedConcat(a[1..], b);
      assert (a + b)[1..] == a[1..] + b;
    }
  }

  /** A row's figures are copied: what the line says is what the row prints, and where the row leaves
      gross or net out, gross less deductions is net. */
  lemma LineIsItsRow(row: seq<string>, cols: ColumnMap, dates: string -> Option<Date>)
    requires LineOf(row, cols, dates).Some?
    ensures var line, f := LineOf(row, cols, dates).value, FiguresOf(row, cols);
      && IsWellRead(line) && line.number == Cell(row, cols, Number)
      && (line.kind == AdjustmentLine <==> IsReduction(f))
      && (line.kind == InvoiceLine ==>
            && (f.gross.Some? ==> line.invoiceAmount == f.gross.value)
            && (f.paid.Some? ==> line.paid == f.paid.value)
            && Deducted(line.deductions) == f.tds + f.adjustment + f.other
            && (f.gross.None? || f.paid.None? ==> line.invoiceAmount - Deducted(line.deductions) == line.paid))
  {
    hide Cell, AmountAt, SizeAt;
    DeductedOf(FiguresOf(row, cols));
  }

  // ----- all rows -----

  /** Lines with the position of the row each was read from. */
  type Sourced = (nat, LineItem)

  function ReadUpTo(rows: seq<seq<string>>, cols: ColumnMap, dates: string -> Option<Date>, n: nat): (r: seq<Sourced>)
    requires n <= |rows|
    ensures forall i | 0 <= i < |r| :: r[i].0 < n
  {
    if n == 0 then []
    else
      var line := LineOf(rows[n - 1], cols, dates);
      ReadUpTo(rows, cols, dates, n - 1) + if line.Some? then [(n - 1, line.value)] else []
  }

  function LinesIn(read: seq<Sourced>): (r: seq<LineItem>)
    ensures |r| == |read| && forall i | 0 <= i < |r| :: r[i] == read[i].1
  {
    seq(|read|, i requires 0 <= i < |read| => read[i].1)
  }

  /** The `i`-th line is read from its row. */
  ghost predicate ReadFrom(rows: seq<seq<string>>, cols: ColumnMap, dates: string -> Option<Date>, s: Sourced) {
    s.0 < |rows| && LineOf(rows[s.0], cols, dates) == Some(s.1)
  }

  ghost predicate GivesLine(read: seq<Sourced>, k: nat) { exists i | 0 <= i < |read| :: read[i].0 == k }

  lemma {:induction false} ReadEvery(
    rows: seq<seq<string>>, cols: ColumnMap, dates: string -> Option<Date>, n: nat, k: nat)
    requires k < n <= |rows| && LineOf(rows[k], cols, dates).Some?
    ensures GivesLine(ReadUpTo(rows, cols, dates, n), k)
  {
    hide LineOf;
    var before, read := ReadUpTo(rows, cols, dates, n - 1), ReadUpTo(rows, cols, dates, n);
    if k < n - 1 {
      ReadEvery(rows, cols, dates, n - 1, k);
      var i :| 0 <= i < |before| && before[i].0 == k;
      assert read[i].0 == k;
    } else {
      assert read[|before|].0 == k;
    }
  }

  ghost predicate AllReadFrom(
    rows: seq<seq<string>>, cols: ColumnMap, dates: string -> Option<Date>, read: seq<Sourced>) {
    forall i | 0 <= i < |read| :: ReadFrom(rows, cols, dates, read[i])
  }

  ghost predicate InRowOrder(read: seq<Sourced>) { forall i, j | 0 <= i < j < |read| :: read[i].0 < read[j].0 }

  ghost predicate NoneLeftOut(
    rows: seq<seq<string>>, cols: ColumnMap, dates: string -> Option<Date>, read: seq<Sourced>, n: nat)
    requires n <= |rows|
  {
    forall k | 0 <= k < n && LineOf(rows[k], cols, dates).Some? :: GivesLine(read, k)
  }

  lemma {:induction false} ReadSound(rows: seq<seq<string>>, cols: ColumnMap, dates: string -> Option<Date>, n: nat)
    requires n <= |rows|
    ensures AllReadFrom(rows, cols, dates, ReadUpTo(rows, cols, dates, n)) && InRowOrder(ReadUpTo(rows, cols, dates, n))
  {
    hide LineOf;
    if n > 0 { ReadSound(rows, cols, dates, n - 1); }
  }

  /** Each line comes from one row, rows in order, and no row that gives a line is left out. */
  lemma ReadInOrder(rows: seq<seq<string>>, cols: ColumnMap, dates: string -> Option<Date>, n: nat)
    requires n <= |rows|
    ensures var read := ReadUpTo(rows, cols, dates, n);
      AllReadFrom(rows, cols, dates, read) && InRowOrder(read) && NoneLeftOut(rows, cols, dates, read, n)
  {
    hide LineOf, AllReadFrom, InRowOrder, GivesLine;
    ReadSound(rows, cols, dates, n);
    forall k | 0 <= k < n && LineOf(rows[k], cols, dates).Some? ensures GivesLine(ReadUpTo(rows, cols, dates, n), k) {
      ReadEvery(rows, cols, dates, n, k);
    }
  }

  lemma ReadWell(rows: seq<seq<string>>, cols: ColumnMap, dates: string -> Option<Date>, s: Sourced)
    requires ReadFrom(rows, cols, dates, s)
    ensures IsWellRead(s.1)
  {
    LineIsItsRow(rows[s.0], cols, dates);
  }

  // ----- an unlabelled total row -----

  function InvoicedSum(lines: seq<LineItem>): Money {
    if lines == [] then 0 else InvoicedSum(lines[..|lines| - 1]) + lines[|lines| - 1].invoiceAmount
  }

  /** A figure agrees with the sum above it; one must be there at all. */
  predicate AgreesWithin(figure: Option<Money>, sum: Money) {
    figure.None? || Abs(figure.value - sum) <= TOTALS_TOLERANCE
  }

  /** The last row has no number, and its net and gross figures are the sums of the lines above. */
  predicate IsSumRow(last: seq<string>, cols: ColumnMap, lines: seq<LineItem>) {
    && |lines| >= 2 && Cell(last, cols, Number) == ""
    && (AmountAt(last, cols, Net).Some? || AmountAt(last, cols, Gross).Some?)
    && AgreesWithin(AmountAt(last, cols, Net), PaidSum(lines[..|lines| - 1]))
    && AgreesWithin(AmountAt(last, cols, Gross), InvoicedSum(lines[..|lines| - 1]))
  }

  // ----- apply_mapping -----

  predicate RefersApart(rows: seq<seq<string>>, cols: ColumnMap) {
    exists i, j | 0 <= i < j < |rows| ::
      Cell(rows[i], cols, Reference) != "" && Cell(rows[j], cols, Reference) != ""
      && Cell(rows[i], cols, Reference) != Cell(rows[j], cols, Reference)
  }

  /** Whether the last line read is taken as the total. */
  predicate DropsLast(table: LineTable, cols: ColumnMap, read: seq<Sourced>)
    requires forall i | 0 <= i < |read| :: read[i].0 < |table.rows|
  {
    table.totalRow.None? && read != [] && IsSumRow(table.rows[read[|read| - 1].0], cols, LinesIn(read))
  }

  const TOTAL_ROLES: seq<Role> := [Gross, TdsRole, AdjustmentRole, Net]

  function TotalFigure(row: seq<string>, cols: ColumnMap, role: Role): Option<Money> {
    var value := AmountAt(row, cols, role);
    if value.Some? && (role == TdsRole || role == AdjustmentRole) then Some(Abs(value.value)) else value
  }

  /** `totals` are the figures printed in the total row, and there are none without such a row. */
  ghost predicate TotalsOf(totals: map<Role, Money>, row: Option<seq<string>>, cols: ColumnMap) {
    && (forall r | r in totals :: r in TOTAL_ROLES && row.Some? && TotalFigure(row.value, cols, r) == Some(totals[r]))
    && (row.Some? ==> forall r | r in TOTAL_ROLES && TotalFigure(row.value, cols, r).Some? :: r in totals)
  }

  /** What the mapping makes of a table, before its totals: the lines kept, and the total row. */
  function KeptLines(table: LineTable, cols: ColumnMap, dates: string -> Option<Date>): seq<Sourced> {
    var read := ReadUpTo(table.rows, cols, dates, |table.rows|);
    if DropsLast(table, cols, read) then read[..|read| - 1] else read
  }

  function TotalRowOf(table: LineTable, cols: ColumnMap, dates: string -> Option<Date>): Option<seq<string>> {
    var read := ReadUpTo(table.rows, cols, dates, |table.rows|);
    if DropsLast(table, cols, read) then Some(table.rows[read[|read| - 1].0]) else table.totalRow
  }

  /** `apply_mapping`; `None` when rows name different bank references or give no line. */
  method ApplyMapping(table: LineTable, cols: ColumnMap, dates: string -> Option<Date>) returns (r: Option<MappedTable>)
    ensures r.None? <==> RefersApart(table.rows, cols) || KeptLines(table, cols, dates) == []
    ensures r.Some? ==> r.value.lines == LinesIn(KeptLines(table, cols, dates))
    ensures r.Some? ==> TotalsOf(r.value.totals, TotalRowOf(table, cols, dates), cols)
  {
    hide Cell, LineOf, IsSumRow, TotalsOf, RefersApart;
    var apart := FindReferences(table.rows, cols);
    if apart {
      return None;
    }
    var lines, sources := ReadRows(table.rows, cols, dates);
    hide ReadUpTo;
    ghost var read := ReadUpTo(table.rows, cols, dates, |table.rows|);
    var totalRow := table.totalRow;
    if totalRow.None? && lines != [] {
      assert sources[|lines| - 1] == read[|read| - 1].0;
      if IsSumRow(table.rows[sources[|lines| - 1]], cols, lines) {
        totalRow := Some(table.rows[sources[|lines| - 1]]);
        lines := lines[..|lines| - 1];
      }
    }
    assert lines == LinesIn(KeptLines(table, cols, dates));
    if lines == [] {
      return None;
    }
    var totals := ReadTotals(totalRow, cols);
    return Some(MappedTable(lines, totals));
  }

  method ReadRows(rows: seq<seq<string>>, cols: ColumnMap, dates: string -> Option<Date>)
    returns (lines: seq<LineItem>, sources: seq<nat>)
    ensures var read := ReadUpTo(rows, cols, dates, |rows|);
      lines == LinesIn(read) && |sources| == |read| && forall i | 0 <= i < |read| :: sources[i] == read[i].0
  {
    hide LineOf;
    lines, sources := [], [];
    for n := 0 to |rows|
      invariant |sources| == |lines| == |ReadUpTo(rows, cols, dates, n)|
      invariant forall i | 0 <= i < |lines| :: (sources[i], lines[i]) == ReadUpTo(rows, cols, dates, n)[i]
    {
      var line := ReadRow(rows[n], cols, dates);
      if line.Some? {
        lines := lines + [line.value];
        sources := sources + [n];
      }
    }
    assert lines == LinesIn(ReadUpTo(rows, cols, dates, |rows|));
  }

  method FindReferences(rows: seq<seq<string>>, cols: ColumnMap) returns (apart: bool)
    ensures apart == RefersApart(rows, cols)
  {
    hide Cell;
    if Reference !in cols {
      NoReferenceColumn(rows, cols);
      return false;
    }
    var refs: set<string> := {};
    for i := 0 to |rows|
      invariant forall s :: s in refs <==> s != "" && exists k | 0 <= k < i :: Cell(rows[k], cols, Reference) == s
    {
      var s := Cell(rows[i], cols, Reference);
      if s != "" {
        refs := refs + {s};
      }
    }
    apart := |refs| > 1;
    if apart {
      TwoReferences(rows, cols, refs);
    } else {
      AtMostOne(refs);
      forall i, j | 0 <= i < j < |rows| && Cell(rows[i], cols, Reference) != "" && Cell(rows[j], cols, Reference) != ""
        ensures Cell(rows[i], cols, Reference) == Cell(rows[j], cols, Reference)
      {
        assert Cell(rows[i], cols, Reference) in refs && Cell(rows[j], cols, Reference) in refs;
      }
    }
  }

  lemma NoReferenceColumn(rows: seq<seq<string>>, cols: ColumnMap)
    requires Reference !in cols
    ensures !RefersApart(rows, cols)
  {
  }

  lemma AtMostOne(s: set<string>)
    requires |s| <= 1
    ensures forall x, y | x in s && y in s :: x == y
  {
    forall x, y | x in s && y in s ensures x == y {
      if x != y {
        assert {x, y} <= s;
        SubsetSize({x, y}, s);
      }
    }
  }

  lemma SubsetSize(a: set<string>, b: set<string>)
    requires a <= b
    ensures |a| <= |b|
  {
    assert b == a + (b - a);
  }

  lemma TwoReferences(rows: seq<seq<string>>, cols: ColumnMap, refs: set<string>)
    requires |refs| > 1
    requires forall s :: s in refs <==> s != "" && exists k | 0 <= k < |rows| :: Cell(rows[k], cols, Reference) == s
    ensures RefersApart(rows, cols)
  {
    hide Cell;
    var s :| s in refs;
    assert |refs - {s}| == |refs| - 1;
    var t :| t in refs - {s};
    var i :| 0 <= i < |rows| && Cell(rows[i], cols, Reference) == s;
    var j :| 0 <= j < |rows| && Cell(rows[j], cols, Reference) == t;
    assert i != j;
  }

  method ReadTotals(row: Option<seq<string>>, cols: ColumnMap) returns (totals: map<Role, Money>)
    ensures TotalsOf(totals, row, cols)
  {
    hide AmountAt;
    totals := map[];
    if row.None? {
      return;
    }
    for k := 0 to |TOTAL_ROLES|
      invariant forall r :: r in totals <==> r in TOTAL_ROLES[..k] && TotalFigure(row.value, cols, r).Some?
      invariant forall r | r in totals :: TotalFigure(row.value, cols, r) == Some(totals[r])
    {
      assert TOTAL_ROLES[..k + 1] == TOTAL_ROLES[..k] + [TOTAL_ROLES[k]];
      var role := TOTAL_ROLES[k];
      var value := AmountAt(row.value, cols, role);
      if value.Some? {
        totals := totals[role := if role == TdsRole || role == AdjustmentRole then Abs(value.value) else value.value];
      }
    }
  }

  // ----- an output never fails two of the checks -----

  lemma {:induction false} WellReadShapes(lines: seq<LineItem>)
    requires forall i | 0 <= i < |lines| :: IsWellRead(lines[i])
    ensures ShapeFlags(lines) == []
  {
    if lines != [] {
      var last := lines[|lines| - 1];
      WellReadShapes(lines[..|lines| - 1]);
      assert IsWellRead(last);
      if last.kind == AdjustmentLine {
        OneDeducted(last.deductions[0].reason, last.deductions[0].amount);
        assert last.deductions == [Deduction(last.deductions[0].reason, last.deductions[0].amount)];
      }
    }
  }

  lemma AllReadWell(rows: seq<seq<string>>, cols: ColumnMap, dates: string -> Option<Date>, read: seq<Sourced>, i: nat)
    requires AllReadFrom(rows, cols, dates, read) && i < |read|
    ensures IsWellRead(read[i].1)
  {
    assert ReadFrom(rows, cols, dates, read[i]);
    hide *;
    ReadWell(rows, cols, dates, read[i]);
  }

  lemma KeptWellRead(table: LineTable, cols: ColumnMap, dates: string -> Option<Date>)
    ensures forall i | 0 <= i < |KeptLines(table, cols, dates)| :: IsWellRead(KeptLines(table, cols, dates)[i].1)
  {
    hide IsWellRead, IsSumRow, LineOf, AllReadFrom;
    var read := ReadUpTo(table.rows, cols, dates, |table.rows|);
    ReadSound(table.rows, cols, dates, |table.rows|);
    forall i: nat | i < |read| ensures IsWellRead(read[i].1) {
      AllReadWell(table.rows, cols, dates, read, i);
    }
  }

  /** A payload made of a table's lines, with their sum as its total and no deductions of its own, never
      fails the total check (2) or the adjustment check (10), and no line has a negative invoice amount. */
  lemma TableReadsAreSound(table: LineTable, cols: ColumnMap, dates: string -> Option<Date>, p: Payload)
    requires p.lines == LinesIn(KeptLines(table, cols, dates))
    requires p.header.total == PaidSum(p.lines) && p.header.deductions == []
    ensures TotalFlags(p) == [] && ShapeFlags(p.lines) == []
    ensures forall i | 0 <= i < |p.lines| :: p.lines[i].invoiceAmount >= 0 && IsWellRead(p.lines[i])
  {
    KeptWellRead(table, cols, dates);
    hide KeptLines, PaidSum;
    forall i | 0 <= i < |p.lines| ensures IsWellRead(p.lines[i]) {
      assert p.lines[i] == KeptLines(table, cols, dates)[i].1;
    }
    WellReadShapes(p.lines);
  }
}
