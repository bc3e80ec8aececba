/** Mapping a table's columns to line fields (ar_pipeline/tables/mapping.py, first half, and
    ar_pipeline/tables/store.py). */
module Columns {
  import opened Models
  import opened Matching

  datatype Role =
    | Number | DateRole | Gross | TdsRole | AdjustmentRole | OtherDeduction | Net | Reference | Ignore

  type ColumnMap = map<Role, nat>

  datatype Assignment = Assignment(index: int, role: Role)

  /** The AI's answer, or the keyword mapper's, about a table. */
  datatype MappingOutput = MappingOutput(isLineTable: bool, columns: seq<Assignment>)

  // ----- what a usable mapping is -----

  predicate HasRequired(cols: ColumnMap) { Number in cols && Net in cols }

  /** Every role has a column of its own inside the table, and the required roles are there. */
  ghost predicate Usable(cols: ColumnMap, width: nat) {
    && HasRequired(cols) && Ignore !in cols
    && (forall r | r in cols :: cols[r] < width)
    && (forall r, q | r in cols && q in cols && cols[r] == cols[q] :: r == q)
  }

  // ----- validate_mapping -----

  predicate Clashes(cols: ColumnMap, a: Assignment, width: nat) {
    !(0 <= a.index < width) || a.role in cols || exists r | r in cols :: cols[r] == a.index
  }

  /** The first `n` assignments taken, `None` once one does not fit. */
  function Assigned(columns: seq<Assignment>, width: nat, n: nat): Option<ColumnMap>
    requires n <= |columns|
  {
    if n == 0 then Some(map[])
    else
      var before, a := Assigned(columns, width, n - 1), columns[n - 1];
      if before.None? || a.role == Ignore then before
      else if Clashes(before.value, a, width) then None
      else Some(before.value[a.role := a.index])
  }

  function Validated(out: MappingOutput, width: nat): Option<ColumnMap> {
    var cols := Assigned(out.columns, width, |out.columns|);
    if out.isLineTable && cols.Some? && HasRequired(cols.value) then cols else None
  }

  lemma {:induction false} NoneStays(columns: seq<Assignment>, width: nat, i: nat, n: nat)
    requires i <= n <= |columns| && Assigned(columns, width, i).None?
    ensures Assigned(columns, width, n).None?
  {
    if i < n { NoneStays(columns, width, i, n - 1); }
  }

  method ValidateMapping(out: MappingOutput, header: seq<string>) returns (r: Option<ColumnMap>)
    ensures r == Validated(out, |header|)
  {
    if !out.isLineTable {
      return None;
    }
    var cols: ColumnMap := map[];
    for i := 0 to |out.columns|
      invariant Assigned(out.columns, |header|, i) == Some(cols)
    {
      var a := out.columns[i];
      if a.role == Ignore {
        continue;
      }
      if !(0 <= a.index < |header|) || a.role in cols || a.index in cols.Values {
        assert Clashes(cols, a, |header|);
        NoneStays(out.columns, |header|, i + 1, |out.columns|);
        return None;
      }
      cols := cols[a.role := a.index];
    }
    return if HasRequired(cols) then Some(cols) else None;
  }

  lemma {:induction false} AssignedUsable(columns: seq<Assignment>, width: nat, n: nat)
    requires n <= |columns| && Assigned(columns, width, n).Some?
    ensures var cols := Assigned(columns, width, n).value;
      && Ignore !in cols && (forall r | r in cols :: cols[r] < width)
      && (forall r, q | r in cols && q in cols && cols[r] == cols[q] :: r == q)
      && (forall r :: r in cols <==> r != Ignore && exists i | 0 <= i < n :: columns[i].role == r)
      && (forall i | 0 <= i < n && columns[i].role != Ignore ::
            columns[i].role in cols && cols[columns[i].role] == columns[i].index)
  {
    if n > 0 {
      AssignedUsable(columns, width, n - 1);
      var before, a := Assigned(columns, width, n - 1).value, columns[n - 1];
      var cols := Assigned(columns, width, n).value;
      forall r ensures r in cols <==> r != Ignore && exists i | 0 <= i < n :: columns[i].role == r {
        if r in before {
          var i :| 0 <= i < n - 1 && columns[i].role == r;
        }
        if r in cols && r !in before {
          assert columns[n - 1].role == r;
        }
      }
    }
  }

  /** The assignments that say something: each role once, each column once, inside the table. */
  ghost predicate AssignsWell(columns: seq<Assignment>, width: nat, n: nat)
    requires n <= |columns|
  {
    && (forall i | 0 <= i < n && columns[i].role != Ignore :: 0 <= columns[i].index < width)
    && (forall i, j | 0 <= i < j < n && columns[i].role != Ignore && columns[j].role != Ignore ::
          columns[i].role != columns[j].role && columns[i].index != columns[j].index)
  }

  lemma {:induction false} AssignedWhen(columns: seq<Assignment>, width: nat, n: nat)
    requires n <= |columns|
    ensures Assigned(columns, width, n).Some? <==> AssignsWell(columns, width, n)
  {
    if n > 0 {
      AssignedWhen(columns, width, n - 1);
      var a := columns[n - 1];
      if Assigned(columns, width, n - 1).Some? && a.role != Ignore {
        AssignedUsable(columns, width, n - 1);
        var before := Assigned(columns, width, n - 1).value;
        if Clashes(before, a, width) && 0 <= a.index < width {
          if a.role in before {
            var i :| 0 <= i < n - 1 && columns[i].role == a.role;
            assert !AssignsWell(columns, width, n);
          } else {
            var r :| r in before && before[r] == a.index;
            var i :| 0 <= i < n - 1 && columns[i].role == r;
            assert columns[i].index == a.index;
            assert !AssignsWell(columns, width, n);
          }
        }
        if !Clashes(before, a, width) {
          forall i | 0 <= i < n - 1 && columns[i].role != Ignore
            ensures columns[i].role != a.role && columns[i].index != a.index
          {
            assert columns[i].role in before && before[columns[i].role] == columns[i].index;
          }
        }
      } else if Assigned(columns, width, n - 1).None? {
        assert !AssignsWell(columns, width, n - 1);
        assert !AssignsWell(columns, width, n);
      }
    }
  }

  /** An answer is taken exactly when it assigns well and has the required roles; the mapping is then what
      it says, and usable. */
  lemma ValidatedIs(out: MappingOutput, width: nat)
    ensures Validated(out, width).Some? <==>
      && out.isLineTable && AssignsWell(out.columns, width, |out.columns|)
      && (exists i | 0 <= i < |out.columns| :: out.columns[i].role == Number)
      && (exists i | 0 <= i < |out.columns| :: out.columns[i].role == Net)
    ensures Validated(out, width).Some? ==>
      var cols := Validated(out, width).value;
      && Usable(cols, width)
      && forall i | 0 <= i < |out.columns| && out.columns[i].role != Ignore ::
           out.columns[i].role in cols && cols[out.columns[i].role] == out.columns[i].index
  {
    AssignedWhen(out.columns, width, |out.columns|);
    if Assigned(out.columns, width, |out.columns|).Some? {
      AssignedUsable(out.columns, width, |out.columns|);
    }
  }

  // ----- keyword_mapping -----

  predicate IsCompactChar(c: char) { 'a' <= c <= 'z' || IsDigit(c) }

  function Compact(cell: string): string { Keep(Lower(cell), IsCompactChar) }

  const PAID_NAMES: set<string> := {"amountpaid", "paidamount", "paymentamount"}
  const NUMBER_NAMES: set<string> :=
    {"invoice", "bill", "billno", "billnumber", "invoiceno", "invoicenumber", "invno", "docno", "documentno"}
  const GROSS_NAMES: set<string> := {"invoiceamount", "billamount", "invoicevalue", "billamt", "invoiceamt", "invamt"}

  const RULES: seq<Role> := [TdsRole, DateRole, Reference, Number, Gross, AdjustmentRole, OtherDeduction, Net]

  predicate Fits(role: Role, c: string) {
    match role
    case TdsRole => Contains(c, "tds")
    case DateRole => Contains(c, "date")
    case Reference => Contains(c, "utr") || Contains(c, "rtgs") || Contains(c, "neft")
    case Number => c in NUMBER_NAMES
    case Gross => Contains(c, "gross") || c in GROSS_NAMES
    case AdjustmentRole =>
      StartsAt(c, "adv", 0) || Contains(c, "debit") || Contains(c, "adjust") || Contains(c, "discount")
    case OtherDeduction => c == "deduction" || c == "deductions"
    case Net => StartsAt(c, "net", 0) || c in PAID_NAMES || c == "payment"
    case Ignore => false
  }

  predicate NamesNet(c: string) { StartsAt(c, "net", 0) || c in PAID_NAMES }

  /** The first rule from the `k`-th on whose role is free and fits. */
  function FirstFit(cols: ColumnMap, c: string, k: nat): (r: Option<Role>)
    requires k <= |RULES|
    ensures r.Some? ==> r.value != Ignore && r.value !in cols && Fits(r.value, c)
    decreases |RULES| - k
  {
    if k == |RULES| then None
    else if RULES[k] !in cols && Fits(RULES[k], c) then Some(RULES[k])
    else FirstFit(cols, c, k + 1)
  }

  /** The mapping so far, the first column called just "amount", and whether some column names the net. */
  datatype Scan = Scan(cols: ColumnMap, bare: Option<nat>, hasNet: bool)

  function ScanCell(s: Scan, c: string, i: nat): Scan {
    if c == "" then s
    else
      var net := s.(hasNet := s.hasNet || NamesNet(c));
      if c == "amount" then net.(bare := if s.bare.None? then Some(i) else s.bare)
      else
        var role := FirstFit(s.cols, c, 0);
        if role.Some? then net.(cols := s.cols[role.value := i]) else net
  }

  function Scanned(header: seq<string>, n: nat): Scan
    requires n <= |header|
  {
    if n == 0 then Scan(map[], None, false) else ScanCell(Scanned(header, n - 1), Compact(header[n - 1]), n - 1)
  }

  function WithBare(s: Scan): ColumnMap {
    var role := if s.hasNet then Gross else Net;
    if s.bare.Some? && role !in s.cols then s.cols[role := s.bare.value] else s.cols
  }

  function KeywordColumns(header: seq<string>): Option<ColumnMap> {
    var cols := WithBare(Scanned(header, |header|));
    if HasRequired(cols) then Some(cols) else None
  }

  /** `keyword_mapping`. */
  method KeywordMapping(header: seq<string>) returns (r: Option<ColumnMap>)
    ensures r == KeywordColumns(header)
  {
    hide Compact, Fits, NamesNet;
    var cols: ColumnMap, bare: Option<nat>, hasNet := map[], None, false;
    for i := 0 to |header|
      invariant Scan(cols, bare, hasNet) == Scanned(header, i)
    {
      var c := Compact(header[i]);
      if c == "" {
        continue;
      }
      hasNet := hasNet || NamesNet(c);
      if c == "amount" {
        bare := if bare.Some? then bare else Some(i);
        continue;
      }
      cols := GiveRole(cols, c, i);
    }
    if bare.Some? {
      var role := if hasNet then Gross else Net;
      if role !in cols {
        cols := cols[role := bare.value];
      }
    }
    return if HasRequired(cols) then Some(cols) else None;
  }

  method GiveRole(cols0: ColumnMap, c: string, i: nat) returns (cols: ColumnMap)
    ensures var role := FirstFit(cols0, c, 0); cols == if role.Some? then cols0[role.value := i] else cols0
  {
    hide Fits;
    cols := cols0;
    for k := 0 to |RULES|
      invariant cols == cols0 && FirstFit(cols0, c, k) == FirstFit(cols0, c, 0)
    {
      if RULES[k] !in cols && Fits(RULES[k], c) {
        return cols[RULES[k] := i];
      }
    }
  }

  /** The mapping so far uses each column once, and the bare column not at all. */
  ghost predicate ScanOk(header: seq<string>, s: Scan, n: nat)
    requires n <= |header|
  {
    && Ignore !in s.cols
    && (forall r | r in s.cols :: s.cols[r] < n && Compact(header[s.cols[r]]) != "amount")
    && (forall r, q | r in s.cols && q in s.cols && s.cols[r] == s.cols[q] :: r == q)
    && (s.bare.Some? ==> s.bare.value < n && Compact(header[s.bare.value]) == "amount")
  }

  lemma ScanCellOk(header: seq<string>, s: Scan, n: nat)
    requires n < |header| && ScanOk(header, s, n)
    ensures ScanOk(header, ScanCell(s, Compact(header[n]), n), n + 1)
  {
    hide Compact, Fits, NamesNet, FirstFit;
  }

  lemma {:induction false} ScannedOk(header: seq<string>, n: nat)
    requires n <= |header|
    ensures ScanOk(header, Scanned(header, n), n)
  {
    hide Compact, ScanCell;
    if n > 0 {
      ScannedOk(header, n - 1);
      ScanCellOk(header, Scanned(header, n - 1), n - 1);
    }
  }

  /** The keyword mapper gives each role a column of its own. */
  lemma KeywordsUsable(header: seq<string>)
    requires KeywordColumns(header).Some?
    ensures Usable(KeywordColumns(header).value, |header|)
  {
    hide Compact, ScanCell;
    ScannedOk(header, |header|);
  }

  // ----- round trip -----

  /** `columns` lists the mapping's items in some order, as the dictionary does. */
  ghost predicate Lists(columns: seq<Assignment>, cols: ColumnMap) {
    && (forall i | 0 <= i < |columns| :: columns[i].role in cols && columns[i].index == cols[columns[i].role])
    && (forall i, j | 0 <= i < j < |columns| :: columns[i].role != columns[j].role)
    && (forall r | r in cols :: exists i | 0 <= i < |columns| :: columns[i].role == r)
  }

  lemma ListsWell(cols: ColumnMap, columns: seq<Assignment>, width: nat)
    requires Usable(cols, width) && Lists(columns, cols)
    ensures AssignsWell(columns, width, |columns|)
    ensures exists i | 0 <= i < |columns| :: columns[i].role == Number
    ensures exists i | 0 <= i < |columns| :: columns[i].role == Net
  {
  }

  lemma ListedIs(cols: ColumnMap, columns: seq<Assignment>, got: ColumnMap)
    requires Lists(columns, cols) && Ignore !in cols
    requires forall r :: r in got <==> r != Ignore && exists i | 0 <= i < |columns| :: columns[i].role == r
    requires forall i | 0 <= i < |columns| && columns[i].role != Ignore ::
      columns[i].role in got && got[columns[i].role] == columns[i].index
    ensures got == cols
  {
    forall r | r in cols ensures r in got && got[r] == cols[r] {
      var i :| 0 <= i < |columns| && columns[i].role == r;
    }
    forall r | r in got ensures r in cols {
      var i :| 0 <= i < |columns| && columns[i].role == r;
    }
  }

  /** `mapping_output` of a usable mapping is validated back to the same mapping. */
  lemma OutputValidates(cols: ColumnMap, columns: seq<Assignment>, width: nat)
    requires Usable(cols, width) && Lists(columns, cols)
    ensures Validated(MappingOutput(true, columns), width) == Some(cols)
  {
    ListsWell(cols, columns, width);
    AssignedWhen(columns, width, |columns|);
    AssignedUsable(columns, width, |columns|);
    hide Lists, Assigned, AssignsWell;
    ListedIs(cols, columns, Assigned(columns, width, |columns|).value);
  }

  /** So is the keyword mapper's own answer. */
  lemma KeywordsValidate(header: seq<string>, columns: seq<Assignment>)
    requires KeywordColumns(header).Some? && Lists(columns, KeywordColumns(header).value)
    ensures Validated(MappingOutput(true, columns), |header|) == KeywordColumns(header)
  {
    KeywordsUsable(header);
    OutputValidates(KeywordColumns(header).value, columns, |header|);
  }

  // ----- signatures -----

  /** The compacted cells joined by bars; the source stores a hash of it, taken here to be injective. */
  function Signature(header: seq<string>): string {
    if header == [] then ""
    else if |header| == 1 then Compact(header[0])
    else Compact(header[0]) + "|" + Signature(header[1..])
  }

  function Compacted(header: seq<string>): (r: seq<string>)
    ensures |r| == |header| && forall i | 0 <= i < |header| :: r[i] == Compact(header[i])
  {
    seq(|header|, i requires 0 <= i < |header| => Compact(header[i]))
  }

  lemma {:induction false} NoBar(s: string)
    ensures '|' !in Keep(s, IsCompactChar)
  {
    if s != "" { NoBar(s[1..]); }
  }

  /** Two texts cut at their first bar. */
  lemma CutAtBar(a: string, x: string, b: string, y: string)
    requires '|' !in a && '|' !in b && a + "|" + x == b + "|" + y
    ensures a == b && x == y
  {
    var s := a + "|" + x;
    assert s[|a|] == '|' && s[|b|] == '|';
    assert forall i | 0 <= i < |a| :: s[i] == a[i] && a[i] in a;
    assert forall i | 0 <= i < |b| :: s[i] == b[i] && b[i] in b;
    assert s[..|a|] == a && s[..|b|] == b && s[|a| + 1..] == x && s[|b| + 1..] == y;
  }

  lemma SignatureOf(header: seq<string>)
    requires header != []
    ensures Signature(header) == if |header| == 1 then Compact(header[0])
      else Compact(header[0]) + "|" + Signature(header[1..])
    ensures '|' !in Compact(header[0])
    ensures '|' in Signature(header) <==> |header| > 1
  {
    NoBar(Lower(header[0]));
    if |header| > 1 {
      var first := Compact(header[0]);
      assert (first + "|" + Signature(header[1..]))[|first|] == '|';
    }
  }

  /** Headers with the same signature have the same compacted cells, hence the same number of columns. */
  lemma {:induction false} SignatureInjective(a: seq<string>, b: seq<string>)
    requires a != [] && b != [] && Signature(a) == Signature(b)
    ensures Compacted(a) == Compacted(b)
    decreases |a|
  {
    SignatureOf(a);
    SignatureOf(b);
    hide Signature, Compact;
    if |a| > 1 {
      CutAtBar(Compact(a[0]), Signature(a[1..]), Compact(b[0]), Signature(b[1..]));
      SignatureInjective(a[1..], b[1..]);
      assert Compacted(a) == [Compact(a[0])] + Compacted(a[1..]);
      assert Compacted(b) == [Compact(b[0])] + Compacted(b[1..]);
    }
  }

  // ----- the store of saved mappings -----

  datatype SavedMapping = SavedMapping(header: seq<string>, cols: ColumnMap, payer: string, uses: nat)

  ghost predicate SavedOk(signature: string, m: SavedMapping) {
    m.header != [] && signature == Signature(m.header) && Usable(m.cols, |m.header|)
  }

  /** The table `column_mapping`, unique by signature. */
  class MappingStore {
    var saved: map<string, SavedMapping>

    ghost predicate Valid()
      reads this
    {
      forall s | s in saved :: SavedOk(s, saved[s])
    }

    constructor ()
      ensures Valid() && saved == map[]
    {
      saved := map[];
    }

    /** A saved mapping fits every later header with its signature, not only the one it was saved for. */
    method LoadMapping(header: seq<string>) returns (r: Option<ColumnMap>)
      requires Valid() && header != []
      ensures r == if Signature(header) in saved then Some(saved[Signature(header)].cols) else None
      ensures r.Some? ==> Usable(r.value, |header|)
    {
      var s := Signature(header);
      if s !in saved {
        return None;
      }
      ghost var m := saved[s];
      assert SavedOk(s, m);
      SignatureInjective(header, m.header);
      assert |Compacted(header)| == |Compacted(m.header)|;
      return if saved[s].cols == map[] then None else Some(saved[s].cols);
    }

    method SaveMapping(header: seq<string>, cols: ColumnMap, payer: string)
      requires Valid() && header != [] && Usable(cols, |header|)
      modifies this
      ensures Valid() && saved == old(saved)[Signature(header) := SavedMapping(header, cols, payer, 1)]
    {
      saved := saved[Signature(header) := SavedMapping(header, cols, payer, 1)];
    }

    method TouchMapping(header: seq<string>)
      requires Valid()
      modifies this
      ensures Valid() && saved == if Signature(header) in old(saved)
        then old(saved)[Signature(header) := old(saved)[Signature(header)].(uses :=
                          old(saved)[Signature(header)].uses + 1)]
        else old(saved)
    {
      var s := Signature(header);
      if s in saved {
        assert SavedOk(s, saved[s]);
        saved := saved[s := saved[s].(uses := saved[s].uses + 1)];
      }
    }

    method DiscardMapping(header: seq<string>)
      requires Valid()
      modifies this
      ensures Valid() && saved == old(saved) - {Signature(header)}
    {
      saved := saved - {Signature(header)};
    }
  }
}
