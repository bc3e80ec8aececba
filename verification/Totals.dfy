/** A document's own totals against what was extracted (ar_pipeline/tables/totals.py). */
module Totals {
  import opened Models
  import opened Columns
  import opened Rows
  import opened Validators

  /** The figures of the total row by column, and the amount in words. */
  datatype Document = Document(columns: map<Role, Money>, words: Option<Money>)

  predicate IsBlankDocument(d: Document) { d.columns == map[] && d.words.None? }

  function DeductedAs(ds: seq<Deduction>, reason: DeductionType): nat {
    if ds == [] then 0 else (if ds[0].reason == reason then ds[0].amount else 0) + DeductedAs(ds[1..], reason)
  }

  /** What the lines give for a column of the total row. */
  function LineFigure(line: LineItem, role: Role): Money {
    match role
    case Gross => if line.kind == InvoiceLine then line.invoiceAmount else 0
    case TdsRole => if line.kind == InvoiceLine then DeductedAs(line.deductions, Tds) else 0
    case AdjustmentRole =>
      if line.kind == AdjustmentLine then Deducted(line.deductions) else DeductedAs(line.deductions, AdvanceAdjustment)
    case Net => line.paid
    case _ => 0
  }

  function Extracted(lines: seq<LineItem>, role: Role): Money {
    if lines == [] then 0 else Extracted(lines[..|lines| - 1], role) + LineFigure(lines[|lines| - 1], role)
  }

  predicate IsOff(printed: Money, extracted: Money) { Abs(printed - extracted) > TOTALS_TOLERANCE }

  function RoleName(role: Role): string {
    match role
    case Gross => "gross"
    case TdsRole => "TDS"
    case AdjustmentRole => "adjustments"
    case _ => "net paid"
  }

  function ColumnFlags(p: Payload, d: Document, n: nat): seq<Flag>
    requires n <= |TOTAL_ROLES|
  {
    if n == 0 then []
    else
      var role := TOTAL_ROLES[n - 1];
      ColumnFlags(p, d, n - 1)
      + if role in d.columns && IsOff(d.columns[role], Extracted(p.lines, role))
        then [TotalsDiffer(RoleName(role), d.columns[role], Extracted(p.lines, role))] else []
  }

  function TotalsFlags(p: Payload, d: Document): seq<Flag> {
    ColumnFlags(p, d, |TOTAL_ROLES|)
    + if d.words.Some? && IsOff(d.words.value, p.header.total)
      then [TotalsDiffer("amount in words", d.words.value, p.header.total)] else []
  }

  /** Every printed total, and the amount in words, is within the tolerance of what was extracted. */
  ghost predicate AgreesWithDocument(p: Payload, d: Document) {
    && (forall r | r in TOTAL_ROLES && r in d.columns :: !IsOff(d.columns[r], Extracted(p.lines, r)))
    && (d.words.Some? ==> !IsOff(d.words.value, p.header.total))
  }

  lemma {:induction false} NoColumnFlags(p: Payload, d: Document, n: nat)
    requires n <= |TOTAL_ROLES|
    ensures ColumnFlags(p, d, n) == [] <==>
      forall k | 0 <= k < n && TOTAL_ROLES[k] in d.columns ::
        !IsOff(d.columns[TOTAL_ROLES[k]], Extracted(p.lines, TOTAL_ROLES[k]))
  {
    hide Extracted, IsOff;
    if n > 0 { NoColumnFlags(p, d, n - 1); }
  }

  lemma NoFlagsWhenAgreed(p: Payload, d: Document)
    ensures TotalsFlags(p, d) == [] <==> AgreesWithDocument(p, d)
  {
    hide Extracted, IsOff, ColumnFlags;
    NoColumnFlags(p, d, |TOTAL_ROLES|);
  }

  /** `totals_flags`. */
  method FlagTotals(p: Payload, d: Document) returns (flags: seq<Flag>)
    ensures flags == TotalsFlags(p, d)
    ensures flags == [] <==> AgreesWithDocument(p, d)
  {
    hide Extracted, IsOff;
    NoFlagsWhenAgreed(p, d);
    flags := [];
    for k := 0 to |TOTAL_ROLES|
      invariant flags == ColumnFlags(p, d, k)
    {
      var role := TOTAL_ROLES[k];
      if role in d.columns {
        var got := SumFigures(p.lines, role);
        if IsOff(d.columns[role], got) {
          flags := flags + [TotalsDiffer(RoleName(role), d.columns[role], got)];
        }
      }
    }
    if d.words.Some? && IsOff(d.words.value, p.header.total) {
      flags := flags + [TotalsDiffer("amount in words", d.words.value, p.header.total)];
    }
  }

  method SumFigures(lines: seq<LineItem>, role: Role) returns (sum: Money)
    ensures sum == Extracted(lines, role)
  {
    hide LineFigure;
    sum := 0;
    for i := 0 to |lines|
      invariant sum == Extracted(lines[..i], role)
    {
      assert lines[..i + 1][..i] == lines[..i];
      sum := sum + LineFigure(lines[i], role);
    }
    assert lines[..|lines|] == lines;
  }

  /** The net column of the total row is compared with what the payment pays out in all. */
  lemma {:induction false} NetIsPaid(lines: seq<LineItem>)
    ensures Extracted(lines, Net) == PaidSum(lines)
  {
    if lines != [] { NetIsPaid(lines[..|lines| - 1]); }
  }
}
