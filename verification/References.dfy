/** Payment keys (ar_pipeline/threads/references.py). */
module References {
  import opened Models
  import opened Matching
  import opened Dates

  const BANK_TYPES: set<string> := {"utr", "rtgs", "neft", "imps"}
  const DOC_TYPES: set<string> := {"payer_document", "request_number"}

  predicate IsRefChar(c: char) { 'A' <= c <= 'Z' || IsDigit(c) }

  function NormalizeRef(raw: string): string { Keep(Upper(raw), IsRefChar) }

  /** April to March. */
  function FinancialYear(d: Date): int { if d.month >= 4 then d.year else d.year - 1 }

  function PayerSlug(name: string): string {
    var words := PayerWords(name);
    seq(|words|, i requires 0 <= i < |words| => if words[i] == ' ' then '-' else words[i])
  }

  /** The named kind of reference, in small letters. */
  function RefKind(h: Header): string { Lower(if h.referenceType.Some? then h.referenceType.value else "") }

  function PaymentKeyFor(h: Header): Option<Claim> {
    var ref, kind, payer := NormalizeRef(h.reference), RefKind(h), PayerSlug(h.payer);
    if ref != "" && kind in BANK_TYPES then Some(Claim(BankRef(ref), Strong))
    else if ref != "" && payer != "" && kind == "cheque" then Some(Claim(ChequeRef(payer, ref), Strong))
    else if ref != "" && payer != "" && kind in DOC_TYPES then
      Some(Claim(DocumentRef(payer, ref, if h.date.Some? then Some(FinancialYear(h.date.value)) else None), Strong))
    else if payer != "" then Some(Claim(Soft(payer, h.total, h.date), Weak))
    else None
  }

  /** The key of a stored payload; an empty one has none. */
  function KeyOf(canonical: Option<Payload>): Option<Claim> {
    if canonical.Some? then PaymentKeyFor(canonical.value.header) else None
  }

  /** The header fields a payment key is computed from. */
  predicate SameKeyFields(a: Header, b: Header) {
    a.reference == b.reference && a.referenceType == b.referenceType && a.payer == b.payer
    && a.date == b.date && a.total == b.total
  }

  // ----- how a reference is written does not matter -----

  /** Separators anywhere in a reference leave its key alone. */
  lemma SeparatorIgnored(a: string, c: char, b: string)
    requires !IsRefChar(UpperChar(c))
    ensures NormalizeRef(a + [c] + b) == NormalizeRef(a + b)
  {
    assert Upper(a + [c] + b) == Upper(a) + [UpperChar(c)] + Upper(b);
    assert Upper(a + b) == Upper(a) + Upper(b);
    KeepConcat(Upper(a) + [UpperChar(c)], Upper(b), IsRefChar);
    KeepConcat(Upper(a), [UpperChar(c)], IsRefChar);
    KeepConcat(Upper(a), Upper(b), IsRefChar);
    assert [UpperChar(c)][1..] == "";
  }

  lemma CaseIgnored(s: string)
    ensures NormalizeRef(Lower(s)) == NormalizeRef(s)
  {
    assert Upper(Lower(s)) == Upper(s);
  }

  lemma {:induction false} KeptOnly(s: string, keep: char -> bool)
    ensures forall c | c in Keep(s, keep) :: keep(c)
    ensures (forall c | c in s :: keep(c)) ==> Keep(s, keep) == s
  {
    if s != "" {
      KeptOnly(s[1..], keep);
      assert forall c | c in s[1..] :: c in s;
    }
  }

  /** A normalised reference is its own normal form. */
  lemma NormalizeRefIdempotent(s: string)
    ensures NormalizeRef(NormalizeRef(s)) == NormalizeRef(s)
  {
    var r := NormalizeRef(s);
    KeptOnly(Upper(s), IsRefChar);
    assert forall i | 0 <= i < |r| :: r[i] in r;
    assert Upper(r) == r;
    KeptOnly(r, IsRefChar);
  }

  /** Two bank payments share a key exactly when their references differ only in case and separators,
      whatever the payer, amount, date, or which bank scheme is named. */
  lemma BankKeysAgree(a: Header, b: Header)
    requires RefKind(a) in BANK_TYPES && RefKind(b) in BANK_TYPES
    requires NormalizeRef(a.reference) != "" && NormalizeRef(b.reference) != ""
    ensures PaymentKeyFor(a) == PaymentKeyFor(b) <==> NormalizeRef(a.reference) == NormalizeRef(b.reference)
  {
    hide NormalizeRef, PayerSlug, RefKind;
  }

  /** The year of a document key runs from 1 April up to, not including, the next 1 April. */
  lemma FinancialYearBounds(d: Date, year: int)
    requires d.day >= 1
    ensures FinancialYear(d) == year <==> !DayBefore(d, Date(year, 4, 1)) && DayBefore(d, Date(year + 1, 4, 1))
  {
  }

  /** A key is strong exactly when the payment names a bank reference, or a cheque or document reference
      together with its payer; a payer alone gives a weak key, and nothing gives none. */
  lemma KeyStrength(h: Header)
    ensures var key, ref, kind := PaymentKeyFor(h), NormalizeRef(h.reference), RefKind(h);
      && (key.Some? && key.value.strength == Strong <==>
            ref != "" && (kind in BANK_TYPES || (PayerSlug(h.payer) != "" && (kind == "cheque" || kind in DOC_TYPES))))
      && (key.Some? && key.value.strength == Weak ==>
            PayerSlug(h.payer) != "" && key.value.key == Soft(PayerSlug(h.payer), h.total, h.date))
      && (key.None? ==> PayerSlug(h.payer) == "")
  {
    hide NormalizeRef, PayerSlug, RefKind;
    assert "cheque" !in BANK_TYPES && "cheque" !in DOC_TYPES;
  }
}
