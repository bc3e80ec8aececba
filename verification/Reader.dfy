/** Reading a payment advice through its line table (ar_pipeline/tables/reader.py).

    The table found, the AI's two answers, the amount in words and the date reader are inputs. */
module Reader {
  import opened Models
  import opened Columns
  import opened Rows
  import opened Totals
  import opened Validators
  import References

  /** The header the AI reads, before the total is known. */
  datatype HeaderAnswer = HeaderAnswer(isRemittance: bool, header: Header)

  /** What the AI answers: a mapping (`None` when it fails), and a header; and whether the payment built
      from them fits the payload schema. */
  datatype Answers = Answers(mapping: Option<MappingOutput>, header: Option<HeaderAnswer>, fits: Payload -> bool)

  datatype Advice = Advice(table: LineTable, words: Option<Money>, dates: string -> Option<Date>, answers: Answers)

  datatype Origin = SavedOrigin | LearnedOrigin

  datatype TableRead = TableRead(payload: Payload, document: Document, origin: Origin)

  function Learned(a: Advice): Option<ColumnMap> {
    if a.answers.mapping.None? then None else Validated(a.answers.mapping.value, |a.table.header|)
  }

  /** `_output`: the lines as read, their sum as the total, no deductions on the header. */
  function OutputOf(h: Header, lines: seq<LineItem>): Payload {
    Payload(0, None, h.(total := PaidSum(lines), deductions := []), lines)
  }

  /** How a reading through one mapping ends. */
  datatype Attempt = DoesNotFit | GivesUp | Disagrees | Agrees(read: Payload, document: Document)

  /** `r` is how reading the advice with `cols` ends. */
  ghost predicate IsAttempt(a: Advice, cols: ColumnMap, r: Attempt) {
    var kept := KeptLines(a.table, cols, a.dates);
    if RefersApart(a.table.rows, cols) || kept == [] then r == DoesNotFit
    else if a.answers.header.None? || !a.answers.header.value.isRemittance then r == GivesUp
    else
      var p := OutputOf(a.answers.header.value.header, LinesIn(kept));
      if !a.answers.fits(p) then r == GivesUp
      else exists totals :: TotalsOf(totals, TotalRowOf(a.table, cols, a.dates), cols)
             && var d := Document(totals, a.words);
                r == if AgreesWithDocument(p, d) then Agrees(p, d) else Disagrees
  }

  method TryMapping(a: Advice, cols: ColumnMap) returns (r: Attempt)
    ensures IsAttempt(a, cols, r)
  {
    hide KeptLines, RefersApart, TotalsOf, TotalRowOf, AgreesWithDocument, PaidSum;
    var mapped := ApplyMapping(a.table, cols, a.dates);
    if mapped.None? {
      return DoesNotFit;
    }
    if a.answers.header.None? || !a.answers.header.value.isRemittance {
      return GivesUp;
    }
    var p := OutputOf(a.answers.header.value.header, mapped.value.lines);
    if !a.answers.fits(p) {
      return GivesUp;
    }
    var d := Document(mapped.value.totals, a.words);
    var flags := FlagTotals(p, d);
    return if flags == [] then Agrees(p, d) else Disagrees;
  }

  /** The other signatures' mappings are as they were. */
  ghost predicate OthersKept(before: map<string, SavedMapping>, after: map<string, SavedMapping>, signature: string) {
    forall s | s != signature :: (s in after <==> s in before) && (s in before ==> after[s] == before[s])
  }

  /** What an accepted reading promises: its lines are the table's, read by its mapping, its total is their
      sum, and it agrees with every total the document prints. */
  ghost predicate IsSound(a: Advice, cols: ColumnMap, r: TableRead) {
    && Usable(cols, |a.table.header|)
    && r.payload.lines == LinesIn(KeptLines(a.table, cols, a.dates))
    && r.payload.header.total == PaidSum(r.payload.lines) && r.payload.header.deductions == []
    && TotalsOf(r.document.columns, TotalRowOf(a.table, cols, a.dates), cols) && r.document.words == a.words
    && AgreesWithDocument(r.payload, r.document)
  }

  lemma AttemptIsSound(a: Advice, cols: ColumnMap, r: Attempt, origin: Origin)
    requires Usable(cols, |a.table.header|) && IsAttempt(a, cols, r) && r.Agrees?
    ensures IsSound(a, cols, TableRead(r.read, r.document, origin))
  {
    hide KeptLines, RefersApart, TotalsOf, TotalRowOf, AgreesWithDocument, PaidSum;
  }

  /** `read_by_table`: first the saved mapping, then a learned one. A saved mapping that does not fit, or
      disagrees with the document, is discarded; a learned one is saved only when the document's own totals
      agree with what it reads. `cols` is the mapping an accepted reading used. */
  method ReadByTable(store: MappingStore, a: Advice) returns (r: Option<TableRead>, ghost cols: ColumnMap)
    requires store.Valid() && a.table.header != []
    modifies store
    ensures store.Valid() && OthersKept(old(store.saved), store.saved, Signature(a.table.header))
    ensures r.Some? ==> IsSound(a, cols, r.value)
    ensures var s := Signature(a.table.header);
      && (s in store.saved && s !in old(store.saved) ==>
            r.Some? && r.value.origin == LearnedOrigin && !IsBlankDocument(r.value.document)
            && store.saved[s].cols == cols && Learned(a) == Some(cols))
      && (r.Some? && r.value.origin == SavedOrigin ==>
            s in old(store.saved) && s in store.saved && store.saved[s].cols == old(store.saved[s]).cols == cols)
      && (r.Some? && r.value.origin == LearnedOrigin ==>
            (s in store.saved <==> !IsBlankDocument(r.value.document)) && Learned(a) == Some(cols))
      && (s in old(store.saved) && (IsAttempt(a, old(store.saved[s]).cols, DoesNotFit)
                                    || IsAttempt(a, old(store.saved[s]).cols, Disagrees)) ==>
            (r.Some? && r.value.origin == LearnedOrigin) || s !in store.saved)
  {
    hide IsAttempt, IsSound, Signature, Usable;
    var header := a.table.header;
    var saved := store.LoadMapping(header);
    r, cols := None, map[];
    if saved.Some? {
      var attempt := TryMapping(a, saved.value);
      if attempt.GivesUp? {
        UniqueAttempt(a, saved.value, attempt);
        return None, cols;
      }
      if attempt.Agrees? {
        AttemptIsSound(a, saved.value, attempt, SavedOrigin);
        store.TouchMapping(header);
        UniqueAttempt(a, saved.value, attempt);
        return Some(TableRead(attempt.read, attempt.document, SavedOrigin)), saved.value;
      }
      store.DiscardMapping(header);
    }
    var learned := Learned(a);
    if learned.None? {
      return None, cols;
    }
    LearnedUsable(a);
    var attempt := TryMapping(a, learned.value);
    if !attempt.Agrees? {
      return None, cols;
    }
    AttemptIsSound(a, learned.value, attempt, LearnedOrigin);
    if !IsBlankDocument(attempt.document) {
      store.SaveMapping(header, learned.value, References.PayerSlug(attempt.read.header.payer));
    }
    return Some(TableRead(attempt.read, attempt.document, LearnedOrigin)), learned.value;
  }

  lemma LearnedUsable(a: Advice)
    requires Learned(a).Some?
    ensures Usable(Learned(a).value, |a.table.header|)
  {
    ValidatedIs(a.answers.mapping.value, |a.table.header|);
  }

  lemma TotalsUnique(totals: map<Role, Money>, totals': map<Role, Money>, row: Option<seq<string>>, cols: ColumnMap)
    requires TotalsOf(totals, row, cols) && TotalsOf(totals', row, cols)
    ensures totals == totals'
  {
    hide AmountAt;
    assert forall r :: r in totals <==> r in totals';
  }

  /** A mapping reads an advice in one way only. */
  lemma UniqueAttempt(a: Advice, cols: ColumnMap, r: Attempt)
    requires IsAttempt(a, cols, r)
    ensures forall q | IsAttempt(a, cols, q) :: q == r
  {
    hide KeptLines, RefersApart, TotalsOf, TotalRowOf, AgreesWithDocument, PaidSum;
    forall q | IsAttempt(a, cols, q) ensures q == r {
      if r.Agrees? || r.Disagrees? {
        var row := TotalRowOf(a.table, cols, a.dates);
        var t :| TotalsOf(t, row, cols) && var d := Document(t, a.words);
          var p := OutputOf(a.answers.header.value.header, LinesIn(KeptLines(a.table, cols, a.dates)));
          r == if AgreesWithDocument(p, d) then Agrees(p, d) else Disagrees;
        var u :| TotalsOf(u, row, cols) && var d := Document(u, a.words);
          var p := OutputOf(a.answers.header.value.header, LinesIn(KeptLines(a.table, cols, a.dates)));
          q == if AgreesWithDocument(p, d) then Agrees(p, d) else Disagrees;
        TotalsUnique(t, u, row, cols);
      }
    }
  }

  /** An accepted reading fails neither the total check nor the adjustment check. Every figure in the table's
      total row, of whichever column, is within 1.00 of what the lines read give for that column; and its
      total is within 1.00 of the net figure there and of the amount in words. */
  lemma AcceptedReadsAreSound(a: Advice, cols: ColumnMap, r: TableRead)
    requires IsSound(a, cols, r)
    ensures TotalFlags(r.payload) == [] && ShapeFlags(r.payload.lines) == []
    ensures var row := TotalRowOf(a.table, cols, a.dates);
      row.Some? ==> forall role | role in TOTAL_ROLES && TotalFigure(row.value, cols, role).Some? ::
        var printed := TotalFigure(row.value, cols, role).value;
        && Abs(printed - Totals.Extracted(r.payload.lines, role)) <= 100
        && (role == Net ==> Abs(printed - r.payload.header.total) <= 100)
    ensures a.words.Some? ==> Abs(a.words.value - r.payload.header.total) <= 100
  {
    hide KeptLines, TotalFigure, TotalRowOf, PaidSum, Totals.Extracted, ShapeFlags;
    TableReadsAreSound(a.table, cols, a.dates, r.payload);
    NetIsPaid(r.payload.lines);
  }
}
