/** Deterministic checks on one payload (ar_pipeline/normalize/validators.py). */
module Validators {
  import opened Models
  import opened Dates
  import Matching

  const REFERENCE_TYPES: set<string> :=
    {"utr", "rtgs", "neft", "imps", "request_number", "cheque", "payer_document"}

  function PaidSum(lines: seq<LineItem>): Money {
    if lines == [] then 0 else PaidSum(lines[..|lines| - 1]) + lines[|lines| - 1].paid
  }

  predicate IsBlank(s: string) { Matching.Trim(s) == "" }

  /** Check 1: the line pays more than its own stated invoice. */
  predicate PaysTooMuch(line: LineItem) {
    line.invoiceAmount - Deducted(line.deductions) - line.paid < -TOLERANCE
  }

  /** Check 2: the lines less the header's deductions are not the payment's total. */
  predicate TotalOff(p: Payload) {
    Abs(PaidSum(p.lines) - Deducted(p.header.deductions) - p.header.total) > TOLERANCE
  }

  /** Check 10: an adjustment that invoices something, or does not pay back exactly its deductions. */
  predicate Misshapen(line: LineItem) {
    line.kind == AdjustmentLine && (line.invoiceAmount != 0 || Abs(line.paid + Deducted(line.deductions)) > TOLERANCE)
  }

  function NetFlags(lines: seq<LineItem>): seq<Flag> {
    if lines == [] then []
    else
      var i, line := |lines| - 1, lines[|lines| - 1];
      NetFlags(lines[..i])
      + if PaysTooMuch(line)
        then [OverInvoice(i, line.number, line.invoiceAmount, Deducted(line.deductions), line.paid)] else []
  }

  function TotalFlags(p: Payload): seq<Flag> {
    if TotalOff(p) then [TotalMismatch(p.header.total, PaidSum(p.lines), Deducted(p.header.deductions))] else []
  }

  function SignFlags(lines: seq<LineItem>): seq<Flag> {
    if lines == [] then []
    else
      var i, line := |lines| - 1, lines[|lines| - 1];
      SignFlags(lines[..i])
      + (if line.invoiceAmount < 0 then [NegativeInvoice(i, line.invoiceAmount)] else [])
      + (if line.paid < 0 && line.kind != AdjustmentLine then [NegativePaid(i, line.paid)] else [])
  }

  /** How many lines before position `n` carry the same number text. */
  function Occurrences(lines: seq<LineItem>, number: string): nat {
    if lines == [] then 0
    else Occurrences(lines[..|lines| - 1], number) + if lines[|lines| - 1].number == number then 1 else 0
  }

  /** Check 4: once per number text that occurs again, where it first occurs. */
  function RepeatFlags(lines: seq<LineItem>, all: seq<LineItem>): seq<Flag> {
    if lines == [] then []
    else
      var i, number := |lines| - 1, lines[|lines| - 1].number;
      RepeatFlags(lines[..i], all)
      + if !IsBlank(number) && Occurrences(lines[..i], number) == 0 && Occurrences(all, number) > 1
        then [RepeatedNumber(number)] else []
  }

  function BlankFlags(lines: seq<LineItem>): seq<Flag> {
    if lines == [] then []
    else BlankFlags(lines[..|lines| - 1]) + if IsBlank(lines[|lines| - 1].number) then [EmptyNumber(|lines| - 1)]
      else []
  }

  const MAX_BACKDATE := 400
  const FUTURE_GRACE := 2

  /** Check 6: the invoice is dated long after the payment. */
  predicate IsBackDated(line: LineItem, paid: Date) {
    line.date.Some? && DayNumber(line.date.value) - DayNumber(paid) > MAX_BACKDATE
  }

  function BackDateFlags(lines: seq<LineItem>, paid: Date): seq<Flag> {
    if lines == [] then []
    else
      var i, line := |lines| - 1, lines[|lines| - 1];
      BackDateFlags(lines[..i], paid) + if IsBackDated(line, paid) then [BackDated(i, paid, line.date.value)] else []
  }

  predicate IsFuture(paid: Date, today: Date) { DayNumber(paid) > DayNumber(today) + FUTURE_GRACE }

  function DateFlags(p: Payload, today: Date): seq<Flag> {
    if p.header.date.None? then []
    else
      var paid := p.header.date.value;
      BackDateFlags(p.lines, paid)
      + if IsFuture(paid, today) then [FutureDated(paid, DayNumber(today) + FUTURE_GRACE)] else []
  }

  function HeaderFlags(h: Header): seq<Flag> {
    (if h.currency != "INR" then [NotRupees(h.currency)] else [])
    + (if h.referenceType.Some? && h.referenceType.value !in REFERENCE_TYPES
       then [UnknownReferenceType(h.referenceType.value)] else [])
    + (if IsBlank(h.payer) then [PayerMissing] else [])
  }

  function ShapeFlags(lines: seq<LineItem>): seq<Flag> {
    if lines == [] then []
    else ShapeFlags(lines[..|lines| - 1]) + if Misshapen(lines[|lines| - 1]) then [AdjustmentShape(|lines| - 1)] else []
  }

  function ValidatorFlags(p: Payload, today: Date): seq<Flag> {
    NetFlags(p.lines) + TotalFlags(p)
    + SignFlags(p.lines) + (if p.header.total < 0 then [NegativeTotal(p.header.total)] else [])
    + RepeatFlags(p.lines, p.lines) + BlankFlags(p.lines) + DateFlags(p, today) + HeaderFlags(p.header)
    + ShapeFlags(p.lines)
  }

  // ----- the checks as the source runs them -----

  /** `validate_payload`. */
  method ValidatePayload(p: Payload, today: Date) returns (flags: seq<Flag>)
    ensures flags == ValidatorFlags(p, today)
  {
    hide *;
    hide TotalOff, PaidSum, HeaderFlags;
    var net := CheckLines(p.lines);
    var total := CheckTotal(p);
    var signs := CheckSigns(p.lines);
    var negative: seq<Flag> := if p.header.total < 0 then [NegativeTotal(p.header.total)] else [];
    var repeats := CheckRepeats(p.lines);
    var blanks := CheckBlanks(p.lines);
    var dates := CheckDates(p, today);
    var shapes := CheckShapes(p.lines);
    flags := net + total + signs + negative + repeats + blanks + dates + HeaderFlags(p.header) + shapes;
    AllChecks(p, today);
  }

  lemma AllChecks(p: Payload, today: Date)
    ensures ValidatorFlags(p, today) ==
      NetFlags(p.lines) + TotalFlags(p) + SignFlags(p.lines)
      + (if p.header.total < 0 then [NegativeTotal(p.header.total)] else [])
      + RepeatFlags(p.lines, p.lines) + BlankFlags(p.lines) + DateFlags(p, today) + HeaderFlags(p.header)
      + ShapeFlags(p.lines)
  {
  }

  method CheckLines(lines: seq<LineItem>) returns (flags: seq<Flag>)
    ensures flags == NetFlags(lines)
  {
    flags := [];
    for i := 0 to |lines|
      invariant flags == NetFlags(lines[..i])
    {
      assert lines[..i + 1][..i] == lines[..i];
      var deducted := Deducted(lines[i].deductions);
      var residual := lines[i].invoiceAmount - deducted - lines[i].paid;
      if residual < -TOLERANCE {
        flags := flags + [OverInvoice(i, lines[i].number, lines[i].invoiceAmount, deducted, lines[i].paid)];
      }
    }
    assert lines[..|lines|] == lines;
  }

  method CheckTotal(p: Payload) returns (flags: seq<Flag>)
    ensures flags == TotalFlags(p)
  {
    var paid := 0;
    for i := 0 to |p.lines|
      invariant paid == PaidSum(p.lines[..i])
    {
      assert p.lines[..i + 1][..i] == p.lines[..i];
      paid := paid + p.lines[i].paid;
    }
    assert p.lines[..|p.lines|] == p.lines;
    var deducted := Deducted(p.header.deductions);
    flags := if Abs(paid - deducted - p.header.total) > TOLERANCE then [TotalMismatch(p.header.total, paid, deducted)]
      else [];
  }

  method CheckSigns(lines: seq<LineItem>) returns (flags: seq<Flag>)
    ensures flags == SignFlags(lines)
  {
    flags := [];
    for i := 0 to |lines|
      invariant flags == SignFlags(lines[..i])
    {
      assert lines[..i + 1][..i] == lines[..i];
      if lines[i].invoiceAmount < 0 {
        flags := flags + [NegativeInvoice(i, lines[i].invoiceAmount)];
      }
      if lines[i].paid < 0 && lines[i].kind != AdjustmentLine {
        flags := flags + [NegativePaid(i, lines[i].paid)];
      }
    }
    assert lines[..|lines|] == lines;
  }

  /** The number texts that are not blank, in the order first seen: the keys of the counting dictionary. */
  function FirstSeen(lines: seq<LineItem>): seq<string> {
    if lines == [] then []
    else
      var i, number := |lines| - 1, lines[|lines| - 1].number;
      FirstSeen(lines[..i]) + if !IsBlank(number) && Occurrences(lines[..i], number) == 0 then [number] else []
  }

  function RepeatsAmong(numbers: seq<string>, all: seq<LineItem>): seq<Flag> {
    if numbers == [] then []
    else
      var number := numbers[|numbers| - 1];
      RepeatsAmong(numbers[..|numbers| - 1], all) + if Occurrences(all, number) > 1 then [RepeatedNumber(number)]
        else []
  }

  lemma {:induction false} RepeatsAreAmongFirstSeen(lines: seq<LineItem>, all: seq<LineItem>)
    ensures RepeatFlags(lines, all) == RepeatsAmong(FirstSeen(lines), all)
  {
    hide IsBlank;
    if lines != [] {
      var front, number := lines[..|lines| - 1], lines[|lines| - 1].number;
      RepeatsAreAmongFirstSeen(front, all);
      assert FirstSeen(front) + [] == FirstSeen(front) && RepeatFlags(front, all) + [] == RepeatFlags(front, all);
      assert (FirstSeen(front) + [number])[..|FirstSeen(front)|] == FirstSeen(front);
    }
  }

  /** The dictionary of counts: how often each number text that is not blank occurs. */
  ghost predicate CountsOf(counts: map<string, nat>, lines: seq<LineItem>) {
    && (forall n | n in counts :: !IsBlank(n) && counts[n] == Occurrences(lines, n) > 0)
    && (forall n | !IsBlank(n) && Occurrences(lines, n) > 0 :: n in counts)
  }

  lemma CountOne(counts: map<string, nat>, lines: seq<LineItem>, line: LineItem)
    requires CountsOf(counts, lines)
    ensures IsBlank(line.number) ==> CountsOf(counts, lines + [line])
    ensures !IsBlank(line.number) ==>
      CountsOf(counts[line.number := (if line.number in counts then counts[line.number] else 0) + 1], lines + [line])
  {
    hide IsBlank;
    assert (lines + [line])[..|lines|] == lines;
  }

  method CountNumbers(lines: seq<LineItem>) returns (counts: map<string, nat>, seen: seq<string>)
    ensures CountsOf(counts, lines) && seen == FirstSeen(lines) && forall k | 0 <= k < |seen| :: seen[k] in counts
  {
    hide IsBlank, CountsOf, Occurrences;
    counts, seen := map[], [];
    assert CountsOf(counts, lines[..0]) by { NothingCounted(lines[..0]); }
    for i := 0 to |lines|
      invariant seen == FirstSeen(lines[..i]) && CountsOf(counts, lines[..i])
      invariant forall k | 0 <= k < |seen| :: seen[k] in counts
    {
      assert lines[..i + 1][..i] == lines[..i] && lines[..i + 1] == lines[..i] + [lines[i]];
      CountOne(counts, lines[..i], lines[i]);
      var number := lines[i].number;
      if IsBlank(number) {
        continue;
      }
      CountedIs(counts, lines[..i], number);
      if number in counts {
        counts := counts[number := counts[number] + 1];
      } else {
        counts := counts[number := 1];
        seen := seen + [number];
      }
    }
    assert lines[..|lines|] == lines;
  }

  lemma NothingCounted(lines: seq<LineItem>)
    requires lines == []
    ensures CountsOf(map[], lines)
  {
  }

  lemma CountedIs(counts: map<string, nat>, lines: seq<LineItem>, number: string)
    requires CountsOf(counts, lines) && !IsBlank(number)
    ensures number in counts <==> Occurrences(lines, number) > 0
  {
    hide IsBlank, Occurrences;
  }

  method CheckRepeats(lines: seq<LineItem>) returns (flags: seq<Flag>)
    ensures flags == RepeatFlags(lines, lines)
  {
    hide IsBlank, Occurrences, FirstSeen;
    var counts, seen := CountNumbers(lines);
    RepeatsAreAmongFirstSeen(lines, lines);
    flags := [];
    for k := 0 to |seen|
      invariant flags == RepeatsAmong(seen[..k], lines)
    {
      assert seen[..k + 1][..k] == seen[..k];
      if counts[seen[k]] > 1 {
        flags := flags + [RepeatedNumber(seen[k])];
      }
    }
    assert seen[..|seen|] == seen;
  }

  method CheckBlanks(lines: seq<LineItem>) returns (flags: seq<Flag>)
    ensures flags == BlankFlags(lines)
  {
    hide IsBlank;
    flags := [];
    for i := 0 to |lines|
      invariant flags == BlankFlags(lines[..i])
    {
      assert lines[..i + 1][..i] == lines[..i];
      if IsBlank(lines[i].number) {
        flags := flags + [EmptyNumber(i)];
      }
    }
    assert lines[..|lines|] == lines;
  }

  method CheckDates(p: Payload, today: Date) returns (flags: seq<Flag>)
    ensures flags == DateFlags(p, today)
  {
    hide DayNumber;
    flags := [];
    if p.header.date.Some? {
      var paid, lines := p.header.date.value, p.lines;
      for i := 0 to |lines|
        invariant flags == BackDateFlags(lines[..i], paid)
      {
        assert lines[..i + 1][..i] == lines[..i];
        var invoiced := lines[i].date;
        if invoiced.Some? && DayNumber(invoiced.value) - DayNumber(paid) > MAX_BACKDATE {
          flags := flags + [BackDated(i, paid, invoiced.value)];
        }
      }
      assert lines[..|lines|] == lines;
      var cutoff := DayNumber(today) + FUTURE_GRACE;
      if DayNumber(paid) > cutoff {
        flags := flags + [FutureDated(paid, cutoff)];
      }
    }
  }

  method CheckShapes(lines: seq<LineItem>) returns (flags: seq<Flag>)
    ensures flags == ShapeFlags(lines)
  {
    flags := [];
    for i := 0 to |lines|
      invariant flags == ShapeFlags(lines[..i])
    {
      assert lines[..i + 1][..i] == lines[..i];
      if lines[i].kind != AdjustmentLine {
        continue;
      }
      var deducted := Deducted(lines[i].deductions);
      if lines[i].invoiceAmount != 0 || Abs(lines[i].paid + deducted) > TOLERANCE {
        flags := flags + [AdjustmentShape(i)];
      }
    }
    assert lines[..|lines|] == lines;
  }

  // ----- what a clean payload is -----

  predicate CleanLine(line: LineItem) {
    && !PaysTooMuch(line) && NonNegative(line)
    && !IsBlank(line.number) && !Misshapen(line)
  }

  predicate CleanHeader(h: Header) {
    && h.total >= 0 && h.currency == "INR" && (h.referenceType.None? || h.referenceType.value in REFERENCE_TYPES)
    && !IsBlank(h.payer)
  }

  ghost predicate DistinctNumbers(lines: seq<LineItem>) {
    forall i, j | 0 <= i < j < |lines| :: lines[i].number != lines[j].number
  }

  lemma {:induction false} NoNetFlags(lines: seq<LineItem>)
    ensures NetFlags(lines) == [] <==> forall i | 0 <= i < |lines| :: !PaysTooMuch(lines[i])
  {
    hide PaysTooMuch;
    if lines != [] {
      NoNetFlags(lines[..|lines| - 1]);
      assert forall i | 0 <= i < |lines| - 1 :: lines[..|lines| - 1][i] == lines[i];
    }
  }

  predicate NonNegative(line: LineItem) { line.invoiceAmount >= 0 && (line.paid >= 0 || line.kind == AdjustmentLine) }

  lemma {:induction false} NoSignFlags(lines: seq<LineItem>)
    ensures SignFlags(lines) == [] <==> forall i | 0 <= i < |lines| :: NonNegative(lines[i])
  {
    if lines != [] {
      var front := lines[..|lines| - 1];
      assert SignFlags(lines) == [] <==> SignFlags(front) == [] && NonNegative(lines[|lines| - 1]);
      hide SignFlags, NonNegative;
      NoSignFlags(front);
      assert forall i | 0 <= i < |front| :: front[i] == lines[i];
    }
  }

  lemma {:induction false} NoBlankFlags(lines: seq<LineItem>)
    ensures BlankFlags(lines) == [] <==> forall i | 0 <= i < |lines| :: !IsBlank(lines[i].number)
  {
    hide IsBlank;
    if lines != [] {
      NoBlankFlags(lines[..|lines| - 1]);
      assert forall i | 0 <= i < |lines| - 1 :: lines[..|lines| - 1][i] == lines[i];
    }
  }

  lemma {:induction false} NoShapeFlags(lines: seq<LineItem>)
    ensures ShapeFlags(lines) == [] <==> forall i | 0 <= i < |lines| :: !Misshapen(lines[i])
  {
    hide Misshapen;
    if lines != [] {
      NoShapeFlags(lines[..|lines| - 1]);
      assert forall i | 0 <= i < |lines| - 1 :: lines[..|lines| - 1][i] == lines[i];
    }
  }

  lemma CleanLines(lines: seq<LineItem>)
    ensures NetFlags(lines) == [] && SignFlags(lines) == [] && BlankFlags(lines) == [] && ShapeFlags(lines) == []
       <==> forall i | 0 <= i < |lines| :: CleanLine(lines[i])
  {
    NoNetFlags(lines);
    NoSignFlags(lines);
    NoBlankFlags(lines);
    NoShapeFlags(lines);
    hide PaysTooMuch, IsBlank, Misshapen, NetFlags, SignFlags, BlankFlags, ShapeFlags;
  }

  lemma {:induction false} OccurrencesAre(lines: seq<LineItem>, number: string)
    ensures Occurrences(lines, number) > 0 <==> exists i | 0 <= i < |lines| :: lines[i].number == number
    ensures Occurrences(lines, number) > 1 <==>
      exists i, j | 0 <= i < j < |lines| :: lines[i].number == number == lines[j].number
  {
    if lines != [] {
      var n := |lines| - 1;
      var front := lines[..n];
      OccurrencesAre(front, number);
      assert forall i | 0 <= i < n :: front[i] == lines[i];
      if lines[n].number == number && Occurrences(front, number) > 0 {
        var i :| 0 <= i < n && front[i].number == number;
        assert lines[i].number == number == lines[n].number;
      }
    }
  }

  lemma {:induction false} RepeatsAre(lines: seq<LineItem>, all: seq<LineItem>)
    ensures RepeatFlags(lines, all) == [] <==>
      forall i | 0 <= i < |lines| && !IsBlank(lines[i].number) :: Occurrences(all, lines[i].number) <= 1
  {
    hide IsBlank, Occurrences;
    if lines != [] {
      var n := |lines| - 1;
      var front := lines[..n];
      RepeatsAre(front, all);
      assert forall i | 0 <= i < n :: front[i] == lines[i];
      OccurrencesAre(front, lines[n].number);
      if Occurrences(front, lines[n].number) > 0 {
        var i :| 0 <= i < n && front[i].number == lines[n].number;
        assert lines[i].number == lines[n].number;
      }
    }
  }

  lemma DistinctWhen(lines: seq<LineItem>)
    requires forall i | 0 <= i < |lines| :: !IsBlank(lines[i].number)
    ensures RepeatFlags(lines, lines) == [] <==> DistinctNumbers(lines)
  {
    RepeatsAre(lines, lines);
    hide RepeatFlags, IsBlank, Occurrences;
    forall i, j | 0 <= i < j < |lines| && lines[i].number == lines[j].number
      ensures Occurrences(lines, lines[i].number) > 1
    {
      OccurrencesAre(lines, lines[i].number);
    }
    forall i | 0 <= i < |lines| && Occurrences(lines, lines[i].number) > 1 ensures !DistinctNumbers(lines) {
      OccurrencesAre(lines, lines[i].number);
    }
  }

  /** No line's invoice is dated more than 400 days after the payment, and the payment is dated at most two
      days from today. */
  ghost predicate DatesFit(p: Payload, today: Date) {
    p.header.date.Some? ==>
      && (forall i | 0 <= i < |p.lines| && p.lines[i].date.Some? ::
            DayNumber(p.lines[i].date.value) <= DayNumber(p.header.date.value) + MAX_BACKDATE)
      && DayNumber(p.header.date.value) <= DayNumber(today) + FUTURE_GRACE
  }

  lemma {:induction false} NoBackDateFlags(lines: seq<LineItem>, paid: Date)
    ensures BackDateFlags(lines, paid) == [] <==> forall i | 0 <= i < |lines| :: !IsBackDated(lines[i], paid)
  {
    hide IsBackDated;
    if lines != [] {
      NoBackDateFlags(lines[..|lines| - 1], paid);
      assert forall i | 0 <= i < |lines| - 1 :: lines[..|lines| - 1][i] == lines[i];
    }
  }

  lemma NoDateFlags(p: Payload, today: Date)
    ensures DateFlags(p, today) == [] <==> DatesFit(p, today)
  {
    hide DayNumber, BackDateFlags;
    if p.header.date.Some? { NoBackDateFlags(p.lines, p.header.date.value); }
  }

  lemma CleanHeaderFlags(h: Header)
    ensures HeaderFlags(h) == [] && h.total >= 0 <==> CleanHeader(h)
  {
    hide IsBlank;
  }

  /** No flag exactly when every line and the header are clean, no number text occurs twice, the lines less
      the header's deductions are the total, and the dates fit. */
  lemma NoFlagsExactly(p: Payload, today: Date)
    ensures ValidatorFlags(p, today) == [] <==>
      && (forall i | 0 <= i < |p.lines| :: CleanLine(p.lines[i])) && DistinctNumbers(p.lines)
      && CleanHeader(p.header) && !TotalOff(p) && DatesFit(p, today)
  {
    NoDateFlags(p, today);
    CleanLines(p.lines);
    CleanHeaderFlags(p.header);
    NoneBlank(p.lines);
    hide NetFlags, SignFlags, BlankFlags, ShapeFlags, RepeatFlags, DateFlags, HeaderFlags, CleanLine, CleanHeader,
         TotalOff, DatesFit;
  }

  lemma NoneBlank(lines: seq<LineItem>)
    ensures (forall i | 0 <= i < |lines| :: CleanLine(lines[i])) ==>
      (RepeatFlags(lines, lines) == [] <==> DistinctNumbers(lines))
  {
    hide RepeatFlags, IsBlank, PaysTooMuch, Misshapen, NonNegative;
    if forall i | 0 <= i < |lines| :: CleanLine(lines[i]) {
      forall i | 0 <= i < |lines| ensures !IsBlank(lines[i].number) { assert CleanLine(lines[i]); }
      DistinctWhen(lines);
    }
  }
}
