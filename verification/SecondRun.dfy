/** A ledger backfill that has something to post when it runs again (ar_pipeline/ledger/posting.py:93-101). */
module SecondRun {
  import opened Models
  import opened Matching
  import opened Checks
  import opened Posting
  import opened Backfill
  import opened Validators
  import opened Overpayment

  function ApprovedOf(p: Payload): Extraction {
    Extraction(0, None, Some(p), 0, true, [], Approved, None, None, "", None, false, None)
  }

  /** A credit note for `amount` off invoice `number`. */
  function Reduction(note: string, number: string, amount: nat): LineItem {
    LineItem(note, None, 0, [Deduction(CreditNote, amount)], 0 - amount, AdjustmentLine, number)
  }

  /** It pays `amount` for one invoice and takes as much off another, so nothing in all. */
  function Reducing(other: string, note: string, number: string, amount: nat): Payload {
    Payload(0, None, PlainHeader(0), [PlainLine(other, amount, amount), Reduction(note, number, amount)])
  }

  function Paying(number: string, amount: nat): Payload {
    Payload(1, None, PlainHeader(amount), [PlainLine(number, amount, amount)])
  }

  lemma ReducingEntries(other: string, note: string, number: string, amount: nat)
    ensures var lines := Reducing(other, note, number, amount).lines;
      Ordered(lines) == [(0, lines[0]), (1, lines[1])]
  {
    var a, b := PlainLine(other, amount, amount), Reduction(note, number, amount);
    assert [a, b][..1] == [a] && [a][..0] == [];
    assert OfKind([a], InvoiceLine) == [(0, a)] && OfKind([a], AdjustmentLine) == [];
  }

  lemma PayingEntries(number: string, amount: nat)
    ensures var lines := Paying(number, amount).lines; Ordered(lines) == [(0, lines[0])]
  {
    var a := PlainLine(number, amount, amount);
    assert [a][..0] == [];
    assert OfKind([a], InvoiceLine) == [(0, a)] && OfKind([a], AdjustmentLine) == [];
  }

  lemma TwoPost(l: Ledger, id: nat, h: Header, a: Entry, b: Entry)
    ensures PostEntries(l, id, h, [a, b]) == PostEntry(PostEntry(l, id, h, a), id, h, b)
  {
    assert [a, b][..1] == [a] && [a][..0] == [];
    hide PostEntry;
    assert PostEntries(l, id, h, []) == l;
    assert PostEntries(l, id, h, [a]) == PostEntry(l, id, h, a);
  }

  lemma OnePosts(l: Ledger, id: nat, h: Header, a: Entry)
    ensures PostEntries(l, id, h, [a]) == PostEntry(l, id, h, a)
  {
    assert [a][..0] == [];
    hide PostEntry;
    assert PostEntries(l, id, h, []) == l;
  }

  function PaidRow(number: string, id: nat, amount: nat): Row {
    Row(NumberKey(number), id, 0, PaymentRow, amount, amount, "INR", "")
  }

  /** Its invoice line is posted once; its adjustment as soon as the invoice is there. */
  lemma ReducingPosts(l: Ledger, other: string, note: string, number: string, amount: nat)
    requires NumberKey(other) != "" && NumberKey(number) != "" && amount > 0
    requires (forall r | r in l.rows :: !(r.extraction == 0 && r.line == 1))
    requires HasRow(l.rows, 0, 0) ==> NumberKey(other) in l.invoices
    ensures var l' := Post(l, 0, ApprovedOf(Reducing(other, note, number, amount)));
      && l'.invoices.Keys == l.invoices.Keys + {NumberKey(other)}
      && l'.rows == l.rows
           + (if HasRow(l.rows, 0, 0) then [] else [PaidRow(other, 0, amount)])
           + (if NumberKey(number) in l'.invoices
              then [Row(NumberKey(number), 0, 1, AdjustmentRow, 0, amount, "INR", "")] else [])
  {
    var p := Reducing(other, note, number, amount);
    ReducingEntries(other, note, number, amount);
    TwoPost(l, 0, p.header, (0, p.lines[0]), (1, p.lines[1]));
    assert Deducted([Deduction(CreditNote, amount)]) == amount by { assert Deducted([]) == 0; }
    assert Deducted([]) == 0;
    hide NumberKey, Ordered, EmailInvoice, Deducted;
    var l1 := PostEntry(l, 0, p.header, (0, p.lines[0]));
    assert l1.invoices.Keys == l.invoices.Keys + {NumberKey(other)};
    assert !HasRow(l1.rows, 0, 1);
  }

  lemma PayingPosts(l: Ledger, number: string, amount: nat)
    requires NumberKey(number) != "" && (HasRow(l.rows, 1, 0) ==> NumberKey(number) in l.invoices)
    ensures var l' := Post(l, 1, ApprovedOf(Paying(number, amount)));
      && l'.invoices.Keys == l.invoices.Keys + {NumberKey(number)}
      && l'.rows == l.rows + if HasRow(l.rows, 1, 0) then [] else [PaidRow(number, 1, amount)]
  {
    var p := Paying(number, amount);
    PayingEntries(number, amount);
    OnePosts(l, 1, p.header, (0, p.lines[0]));
    assert Deducted([]) == 0;
    hide NumberKey, Ordered, EmailInvoice;
  }

  lemma TwoInOrder(l: Ledger, exts: seq<Extraction>)
    requires |exts| == 2 && Counts(exts, 0) && Counts(exts, 1)
    ensures PostAll(l, exts, [0, 1]) == Post(Post(l, 0, exts[0]), 1, exts[1])
  {
    var one, both: seq<nat> := [0], [0, 1];
    assert both[..1] == one && one[..0] == [];
    hide Post;
    assert PostAll(l, exts, []) == l;
    assert PostAll(l, exts, one) == Post(l, 0, exts[0]);
  }

  /** Two payments without a flag of their own, the one that reduces an invoice listed before the one that
      creates it: the first run posts what both pay, and the second the adjustment. */
  lemma SecondRunPosts(other: string, note: string, number: string, amount: nat, today: Date)
    requires NumberKey(other) != NumberKey(number) && NumberKey(other) != "" && NumberKey(number) != "" && amount > 0
    requires Trim(note) != "" && note != other
    ensures var reducing, paying := Reducing(other, note, number, amount), Paying(number, amount);
      && ValidatorFlags(reducing, today) == [] && ValidatorFlags(paying, today) == []
      && var exts, order := [ApprovedOf(reducing), ApprovedOf(paying)], [0, 1];
         var l1 := PostAll(Ledger(map[], []), exts, order);
         && l1.rows == [PaidRow(other, 0, amount), PaidRow(number, 1, amount)]
         && PostAll(l1, exts, order).rows
            == l1.rows + [Row(NumberKey(number), 0, 1, AdjustmentRow, 0, amount, "INR", "")]
  {
    ReducingIsClean(other, note, number, amount, today);
    PayingIsClean(number, amount, today);
    FirstRun(other, note, number, amount);
    hide NumberKey, Post, PostAll, ValidatorFlags, Reducing, Paying, PaidRow;
    var exts := [ApprovedOf(Reducing(other, note, number, amount)), ApprovedOf(Paying(number, amount))];
    SecondRunOn(PostAll(Ledger(map[], []), exts, [0, 1]), other, note, number, amount);
  }

  lemma FirstRun(other: string, note: string, number: string, amount: nat)
    requires NumberKey(other) != NumberKey(number) && NumberKey(other) != "" && NumberKey(number) != "" && amount > 0
    ensures var exts := [ApprovedOf(Reducing(other, note, number, amount)), ApprovedOf(Paying(number, amount))];
      var l1 := PostAll(Ledger(map[], []), exts, [0, 1]);
      && l1.rows == [PaidRow(other, 0, amount), PaidRow(number, 1, amount)]
      && l1.invoices.Keys == {NumberKey(other), NumberKey(number)}
  {
    var exts := [ApprovedOf(Reducing(other, note, number, amount)), ApprovedOf(Paying(number, amount))];
    var empty := Ledger(map[], []);
    assert Counts(exts, 0) && Counts(exts, 1);
    hide NumberKey, Post, Reducing, Paying, PostAll;
    TwoInOrder(empty, exts);
    ReducingPosts(empty, other, note, number, amount);
    var l0 := Post(empty, 0, exts[0]);
    assert l0.rows == [PaidRow(other, 0, amount)];
    PayingPosts(l0, number, amount);
  }

  lemma SecondRunOn(l: Ledger, other: string, note: string, number: string, amount: nat)
    requires NumberKey(other) != NumberKey(number) && NumberKey(other) != "" && NumberKey(number) != "" && amount > 0
    requires l.rows == [PaidRow(other, 0, amount), PaidRow(number, 1, amount)]
    requires l.invoices.Keys == {NumberKey(other), NumberKey(number)}
    ensures var exts := [ApprovedOf(Reducing(other, note, number, amount)), ApprovedOf(Paying(number, amount))];
      PostAll(l, exts, [0, 1]).rows == l.rows + [Row(NumberKey(number), 0, 1, AdjustmentRow, 0, amount, "INR", "")]
  {
    var exts := [ApprovedOf(Reducing(other, note, number, amount)), ApprovedOf(Paying(number, amount))];
    assert Counts(exts, 0) && Counts(exts, 1);
    RowsThere(l, other, number, amount);
    hide NumberKey, Post, Reducing, Paying, PostAll, PaidRow, HasRow;
    TwoInOrder(l, exts);
    ReducingPosts(l, other, note, number, amount);
    var l2 := Post(l, 0, exts[0]);
    assert HasRow(l2.rows, 1, 0) by { StillThere(l, l2); }
    PayingPosts(l2, number, amount);
  }

  lemma RowsThere(l: Ledger, other: string, number: string, amount: nat)
    requires l.rows == [PaidRow(other, 0, amount), PaidRow(number, 1, amount)]
    ensures HasRow(l.rows, 0, 0) && HasRow(l.rows, 1, 0)
    ensures forall r | r in l.rows :: !(r.extraction == 0 && r.line == 1)
  {
    assert l.rows[0] in l.rows && l.rows[1] in l.rows;
  }

  lemma StillThere(l: Ledger, l': Ledger)
    requires l.rows <= l'.rows && HasRow(l.rows, 1, 0)
    ensures HasRow(l'.rows, 1, 0)
  {
    var r :| r in l.rows && r.extraction == 1 && r.line == 0;
    assert r in l'.rows;
  }

  lemma NotBlank(s: string)
    requires NumberKey(s) != ""
    ensures Trim(s) != ""
  {
    TrimKey(s);
    assert NumberKey("") == "";
    hide NumberKey, Trim;
  }

  lemma ReducingIsClean(other: string, note: string, number: string, amount: nat, today: Date)
    requires NumberKey(other) != "" && Trim(note) != "" && note != other
    ensures ValidatorFlags(Reducing(other, note, number, amount), today) == []
  {
    var p := Reducing(other, note, number, amount);
    NotBlank(other);
    NoFlagsExactly(p, today);
    assert Deducted([Deduction(CreditNote, amount)]) == amount by { assert Deducted([]) == 0; }
    assert p.lines[..1] == [p.lines[0]] && p.lines[..1][..0] == [];
    assert PaidSum(p.lines[..1]) == amount;
    PlainPayer();
    hide NumberKey, Trim, ValidatorFlags;
  }

  lemma PayingIsClean(number: string, amount: nat, today: Date)
    requires NumberKey(number) != ""
    ensures ValidatorFlags(Paying(number, amount), today) == []
  {
    var p := Paying(number, amount);
    NotBlank(number);
    NoFlagsExactly(p, today);
    assert Deducted([]) == 0;
    assert p.lines[..0] == [];
    assert PaidSum(p.lines) == amount;
    PlainPayer();
    hide NumberKey, Trim, ValidatorFlags;
  }

  lemma PlainPayer()
    ensures Trim("Acme") != ""
  {
    assert Trim("Acme") == "Acme";
  }
}
