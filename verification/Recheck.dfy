/** Recomputing every flag a payment carries (ar_pipeline/normalize/recheck.py). */
module Recheck {
  import opened Models
  import opened Checks
  import opened Validators

  predicate IsKeyFlag(f: Flag) { f.ReferenceUsed? || f.PossibleDuplicate? || f.SameReference? || f.RejectedBefore? }

  /** Flags only the original read can know; warnings about the key stay while the key does. */
  predicate IsSticky(f: Flag, keyChanged: bool) {
    f.Truncated? || f.EarlierMessage? || f.BeforeGoLive? || f.DraftSkipped? || (!keyChanged && IsKeyFlag(f))
  }

  function Sticky(flags: seq<Flag>, keyChanged: bool): seq<Flag> {
    if flags == [] then []
    else Sticky(flags[..|flags| - 1], keyChanged)
         + if IsSticky(flags[|flags| - 1], keyChanged) then [flags[|flags| - 1]] else []
  }

  function Without(flags: seq<Flag>, kept: seq<Flag>): seq<Flag> {
    if flags == [] then []
    else Without(flags[..|flags| - 1], kept) + if flags[|flags| - 1] in kept then [] else [flags[|flags| - 1]]
  }

  /** `others` are the flags of the checks against the document's totals and the client's names;
      `listing` is the order in which the database lists its invoices. */
  datatype Context = Context(others: seq<Flag>, listing: seq<string>, today: Date)

  function ContextFlags(l: Ledger, context: Context, p: Payload): seq<Flag> {
    context.others + LedgerFlags(l, context.listing, p)
  }

  function FreshFlags(l: Ledger, context: Context, p: Payload): seq<Flag> {
    ValidatorFlags(p, context.today) + ContextFlags(l, context, p)
  }

  function Rechecked(l: Ledger, context: Context, flags: seq<Flag>, p: Payload, keyChanged: bool): seq<Flag> {
    var kept := Sticky(flags, keyChanged);
    kept + Without(FreshFlags(l, context, p), kept)
  }

  /** `recheck`. */
  method RecheckPayment(db: Database, context: Context, current: seq<Flag>, p: Payload, keyChanged: bool)
    returns (flags: seq<Flag>)
    ensures flags == Rechecked(db.Books(), context, current, p, keyChanged)
  {
    hide LedgerFlags, ValidatorFlags;
    var kept: seq<Flag> := [];
    for i := 0 to |current|
      invariant kept == Sticky(current[..i], keyChanged)
    {
      assert current[..i + 1][..i] == current[..i];
      if IsSticky(current[i], keyChanged) {
        kept := kept + [current[i]];
      }
    }
    assert current[..|current|] == current;
    var ledgerFlags := CheckAgainstLedger(db, context.listing, p);
    var checked := ValidatePayload(p, context.today);
    var found := checked + (context.others + ledgerFlags);
    var added: seq<Flag> := [];
    for i := 0 to |found|
      invariant added == Without(found[..i], kept)
    {
      assert found[..i + 1][..i] == found[..i];
      if found[i] !in kept {
        added := added + [found[i]];
      }
    }
    assert found[..|found|] == found;
    flags := kept + added;
  }

  lemma {:induction false} StickyAre(flags: seq<Flag>, keyChanged: bool)
    ensures forall f :: f in Sticky(flags, keyChanged) <==> f in flags && IsSticky(f, keyChanged)
  {
    if flags != [] { StickyAre(flags[..|flags| - 1], keyChanged); }
  }

  lemma {:induction false} WithoutAre(flags: seq<Flag>, kept: seq<Flag>)
    ensures forall f :: f in Without(flags, kept) <==> f in flags && f !in kept
  {
    if flags != [] { WithoutAre(flags[..|flags| - 1], kept); }
  }

  /** After a recheck a payment carries exactly the flags its payload earns now and the sticky ones it
      had: so it is clean exactly when the payload is clean and nothing sticky was on it. */
  lemma RecheckedAre(l: Ledger, context: Context, flags: seq<Flag>, p: Payload, keyChanged: bool)
    ensures forall f :: f in Rechecked(l, context, flags, p, keyChanged)
                    <==> f in FreshFlags(l, context, p) || (f in flags && IsSticky(f, keyChanged))
    ensures Rechecked(l, context, flags, p, keyChanged) == []
       <==> FreshFlags(l, context, p) == [] && forall f | f in flags :: !IsSticky(f, keyChanged)
  {
    hide FreshFlags;
    var kept, found := Sticky(flags, keyChanged), FreshFlags(l, context, p);
    StickyAre(flags, keyChanged);
    WithoutAre(found, kept);
    var r := Rechecked(l, context, flags, p, keyChanged);
    assert found != [] ==> found[0] in r;
    assert r != [] ==> r[0] in r;
  }

  /** Checking again with the same books and key changes nothing. */
  lemma RecheckIsStable(l: Ledger, context: Context, flags: seq<Flag>, p: Payload)
    ensures var once := Rechecked(l, context, flags, p, false);
      forall f :: f in Rechecked(l, context, once, p, false) <==> f in once
  {
    RecheckedAre(l, context, flags, p, false);
    RecheckedAre(l, context, Rechecked(l, context, flags, p, false), p, false);
  }
}
