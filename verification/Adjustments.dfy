/** Which invoice an adjustment line reduces (ar_pipeline/ledger/adjustments.py). */
module Adjustments {
  import opened Models
  import opened Matching

  const MIN_DIGITS := 4
  const MIN_NEAR := 6
  const LIMIT := 3

  function Digits(s: string): string { Keep(s, c => IsDigit(c)) }

  predicate HasKey(numbers: seq<string>, key: string) {
    exists n | n in numbers :: NumberKey(n) == key
  }

  /** The first number of each number key; numbers without a key are dropped. */
  function FirstOfEachKey(numbers: seq<string>): seq<string> {
    if numbers == [] then []
    else
      var last := numbers[|numbers| - 1];
      var rest := FirstOfEachKey(numbers[..|numbers| - 1]);
      if NumberKey(last) != "" && !HasKey(rest, NumberKey(last)) then rest + [last] else rest
  }

  /** It keeps numbers it was given, one for each number key, and the first one when that has a key. */
  lemma {:induction false} KeepsOneOfEachKey(numbers: seq<string>)
    ensures var r := FirstOfEachKey(numbers);
      && (forall n | n in r :: n in numbers && NumberKey(n) != "")
      && (forall i, j | 0 <= i < j < |r| :: NumberKey(r[i]) != NumberKey(r[j]))
      && (forall n | n in numbers && NumberKey(n) != "" :: HasKey(r, NumberKey(n)))
      && (numbers != [] && NumberKey(numbers[0]) != "" ==> r != [] && r[0] == numbers[0])
  {
    if numbers != [] {
      var front := numbers[..|numbers| - 1];
      KeepsOneOfEachKey(front);
      var rest, r := FirstOfEachKey(front), FirstOfEachKey(numbers);
      forall n | n in numbers && NumberKey(n) != "" ensures HasKey(r, NumberKey(n)) {
        if n in front {
          var m :| m in rest && NumberKey(m) == NumberKey(n);
          assert m in r;
        } else if !HasKey(rest, NumberKey(n)) {
          assert n in r;
        } else {
          var m :| m in rest && NumberKey(m) == NumberKey(n);
          assert m in r;
        }
      }
    }
  }

  method Unique(numbers: seq<string>) returns (out: seq<string>)
    ensures out == FirstOfEachKey(numbers)
  {
    var seen: set<string> := {};
    out := [];
    for i := 0 to |numbers|
      invariant out == FirstOfEachKey(numbers[..i])
      invariant forall k :: k in seen <==> HasKey(out, k)
    {
      assert numbers[..i + 1][..i] == numbers[..i];
      var k := NumberKey(numbers[i]);
      if k != "" && k !in seen {
        seen := seen + {k};
        out := out + [numbers[i]];
      }
    }
    assert numbers[..|numbers|] == numbers;
  }

  function Select(numbers: seq<string>, keep: string -> bool): (r: seq<string>)
    ensures forall n :: n in r <==> n in numbers && keep(n)
  {
    if numbers == [] then []
    else (if keep(numbers[0]) then [numbers[0]] else []) + Select(numbers[1..], keep)
  }

  datatype AdjustmentMatch = AdjustmentMatch(target: Option<string>, suggestions: seq<string>)

  function FirstFew(numbers: seq<string>): seq<string> {
    if |numbers| <= LIMIT then numbers else numbers[..LIMIT]
  }

  function ExactMatches(numbers: seq<string>, digits: string): seq<string> {
    Select(numbers, n => Digits(n) == digits)
  }

  function NearNumbers(numbers: seq<string>, digits: string): seq<string> {
    Select(numbers, n => OneDigitApart(digits, Digits(n)))
  }

  /** The one number there is becomes the target, if it may; else the first few are suggested. */
  function Offer(numbers: seq<string>, automatic: bool): AdjustmentMatch {
    if |numbers| == 1 && automatic then AdjustmentMatch(Some(numbers[0]), [])
    else AdjustmentMatch(None, FirstFew(numbers))
  }

  function SameWithDigits(same: seq<string>, d: string): seq<string> {
    FirstOfEachKey(ExactMatches(same, d))
  }

  function LedgerWithDigits(ledger: seq<string>, foreign: seq<string>, d: string): seq<string> {
    FirstOfEachKey(FirstOfEachKey(ExactMatches(ledger, d)) + ExactMatches(foreign, d))
  }

  /** `foreign` are ledger invoices of another payer: an exact match there is only a suggestion. */
  function MatchAdjustment(
    number: string, same: seq<string>, ledger: seq<string>, foreign: seq<string>): AdjustmentMatch {
    var d := Digits(number);
    if |d| < MIN_DIGITS then AdjustmentMatch(None, [])
    else if SameWithDigits(same, d) != [] then Offer(SameWithDigits(same, d), true)
    else if LedgerWithDigits(ledger, foreign, d) != [] then
      Offer(LedgerWithDigits(ledger, foreign, d), FirstOfEachKey(ExactMatches(ledger, d)) != [])
    else if |d| < MIN_NEAR then AdjustmentMatch(None, [])
    else Offer(FirstOfEachKey(NearNumbers(same + ledger + foreign, d)), false)
  }

  /** `n` is the only number key of `numbers` whose digits are `d`. */
  ghost predicate OnlyKeyWithDigits(n: string, numbers: seq<string>, d: string) {
    && n in numbers && Digits(n) == d && NumberKey(n) != ""
    && forall m | m in numbers && Digits(m) == d && NumberKey(m) != "" :: NumberKey(m) == NumberKey(n)
  }

  ghost predicate NoKeyWithDigits(numbers: seq<string>, d: string) {
    forall m | m in numbers && Digits(m) == d :: NumberKey(m) == ""
  }

  lemma ExactOfOne(numbers: seq<string>, d: string)
    ensures var exact := FirstOfEachKey(ExactMatches(numbers, d));
      && (|exact| == 1 ==> OnlyKeyWithDigits(exact[0], numbers, d))
      && (exact == [] <==> NoKeyWithDigits(numbers, d))
    ensures forall n | OnlyKeyWithDigits(n, numbers, d) :: |FirstOfEachKey(ExactMatches(numbers, d))| == 1
  {
    var hits := ExactMatches(numbers, d);
    var exact := FirstOfEachKey(hits);
    KeepsOneOfEachKey(hits);
    forall m | m in numbers && Digits(m) == d && NumberKey(m) != "" ensures HasKey(exact, NumberKey(m)) {
      assert m in hits;
    }
    if exact != [] {
      assert exact[0] in exact && exact[0] in hits;
    }
    forall n | OnlyKeyWithDigits(n, numbers, d) ensures |exact| == 1 {
      OneKeyOnly(exact, NumberKey(n));
    }
  }

  /** Of several numbers, each with its own key, one has another key than this. */
  lemma OneKeyOnly(numbers: seq<string>, key: string)
    requires forall i, j | 0 <= i < j < |numbers| :: NumberKey(numbers[i]) != NumberKey(numbers[j])
    ensures |numbers| <= 1 || exists i | 0 <= i < |numbers| :: NumberKey(numbers[i]) != key
  {
    hide NumberKey;
    assert |numbers| <= 1 || NumberKey(numbers[0]) != NumberKey(numbers[1]);
  }

  /** The invoice `n` can only be the one meant: it alone has the line's digits among this payment's
      invoices, or, when none of those has them, in the whole ledger, and it is of this payer. */
  ghost predicate IsOnlyChoice(n: string, d: string, same: seq<string>, ledger: seq<string>, foreign: seq<string>) {
    || OnlyKeyWithDigits(n, same, d)
    || (NoKeyWithDigits(same, d) && n in ledger && OnlyKeyWithDigits(n, ledger + foreign, d))
  }

  /** An invoice becomes the target by itself exactly when the line's number has enough digits and the
      invoice is the only choice. A number that only another payer's invoice has is never a target. */
  lemma TargetIsUniqueAndOwn(number: string, same: seq<string>, ledger: seq<string>, foreign: seq<string>)
    ensures var target := MatchAdjustment(number, same, ledger, foreign).target; var d := Digits(number);
      && (target.Some? ==> IsOnlyChoice(target.value, d, same, ledger, foreign))
      && (target.Some? <==> |d| >= MIN_DIGITS && exists n :: IsOnlyChoice(n, d, same, ledger, foreign))
  {
    var d := Digits(number);
    ExactOfOne(same, d);
    OwnOfOne(ledger, foreign, d);
    OnlyOwn(ledger, foreign, d);
    hide Digits, OnlyKeyWithDigits, NoKeyWithDigits, FirstOfEachKey, ExactMatches, NearNumbers, LedgerWithDigits;
    var target := MatchAdjustment(number, same, ledger, foreign).target;
    if target.Some? { assert IsOnlyChoice(target.value, d, same, ledger, foreign); }
  }

  /** A number the ledger offers by itself alone has the digits, and is this payer's. */
  lemma OwnOfOne(ledger: seq<string>, foreign: seq<string>, d: string)
    ensures var own, all := FirstOfEachKey(ExactMatches(ledger, d)), LedgerWithDigits(ledger, foreign, d);
      |all| == 1 && own != [] ==> all[0] in ledger && OnlyKeyWithDigits(all[0], ledger + foreign, d)
  {
    var own := FirstOfEachKey(ExactMatches(ledger, d));
    var pool := own + ExactMatches(foreign, d);
    var all := FirstOfEachKey(pool);
    KeepsOneOfEachKey(ExactMatches(ledger, d));
    KeepsOneOfEachKey(pool);
    if |all| == 1 && own != [] {
      var t := all[0];
      assert pool[0] == own[0] && own[0] in own;
      assert t == own[0] && t in ExactMatches(ledger, d);
      forall n | n in ledger + foreign && Digits(n) == d && NumberKey(n) != "" ensures NumberKey(n) == NumberKey(t) {
        InPool(n, ledger, foreign, d);
      }
    }
  }

  /** And one that alone has them is offered by itself. */
  lemma OnlyOwn(ledger: seq<string>, foreign: seq<string>, d: string)
    ensures forall n | n in ledger && OnlyKeyWithDigits(n, ledger + foreign, d) ::
      |LedgerWithDigits(ledger, foreign, d)| == 1 && FirstOfEachKey(ExactMatches(ledger, d)) != []
  {
    forall n | n in ledger && OnlyKeyWithDigits(n, ledger + foreign, d)
      ensures |LedgerWithDigits(ledger, foreign, d)| == 1 && FirstOfEachKey(ExactMatches(ledger, d)) != []
    {
      OwnIsOffered(n, ledger, foreign, d);
    }
  }

  lemma OwnIsOffered(n: string, ledger: seq<string>, foreign: seq<string>, d: string)
    requires n in ledger && OnlyKeyWithDigits(n, ledger + foreign, d)
    ensures |LedgerWithDigits(ledger, foreign, d)| == 1 && FirstOfEachKey(ExactMatches(ledger, d)) != []
  {
    var own := FirstOfEachKey(ExactMatches(ledger, d));
    var pool := own + ExactMatches(foreign, d);
    var all := FirstOfEachKey(pool);
    KeepsOneOfEachKey(ExactMatches(ledger, d));
    KeepsOneOfEachKey(pool);
    assert n in ExactMatches(ledger, d);
    InPool(n, ledger, foreign, d);
    hide FirstOfEachKey, NumberKey, Digits;
    forall i | 0 <= i < |all| ensures NumberKey(all[i]) == NumberKey(n) {
      assert all[i] in all && all[i] in pool && Digits(all[i]) == d && all[i] in ledger + foreign;
    }
    OneKeyOnly(all, NumberKey(n));
  }

  lemma InPool(n: string, ledger: seq<string>, foreign: seq<string>, d: string)
    requires n in ledger + foreign && Digits(n) == d && NumberKey(n) != ""
    ensures HasKey(FirstOfEachKey(FirstOfEachKey(ExactMatches(ledger, d)) + ExactMatches(foreign, d)), NumberKey(n))
  {
    var own := FirstOfEachKey(ExactMatches(ledger, d));
    var pool := own + ExactMatches(foreign, d);
    KeepsOneOfEachKey(ExactMatches(ledger, d));
    KeepsOneOfEachKey(pool);
    if n in ledger {
      assert n in ExactMatches(ledger, d);
      var o :| o in own && NumberKey(o) == NumberKey(n);
      assert o in pool && NumberKey(o) != "";
    } else {
      assert n in ExactMatches(foreign, d);
      assert n in pool;
    }
  }

  /** Same digits, or one digit inserted or missing. */
  ghost predicate Resembles(n: string, d: string) {
    Digits(n) == d || (EditDistance(d, Digits(n)) == 1 && |Digits(n)| != |d|)
  }

  ghost predicate AllResemble(numbers: seq<string>, pool: seq<string>, d: string) {
    forall n | n in numbers :: n in pool && Resembles(n, d)
  }

  lemma UniqueResemble(numbers: seq<string>, pool: seq<string>, d: string)
    requires AllResemble(numbers, pool, d)
    ensures AllResemble(FirstOfEachKey(numbers), pool, d)
  {
    KeepsOneOfEachKey(numbers);
  }

  lemma ExactResemble(numbers: seq<string>, pool: seq<string>, d: string)
    requires forall n | n in numbers :: n in pool
    ensures AllResemble(ExactMatches(numbers, d), pool, d)
  {
  }

  lemma LedgerResemble(ledger: seq<string>, foreign: seq<string>, pool: seq<string>, d: string)
    requires forall n | n in ledger || n in foreign :: n in pool
    ensures AllResemble(LedgerWithDigits(ledger, foreign, d), pool, d)
  {
    ExactResemble(ledger, pool, d);
    UniqueResemble(ExactMatches(ledger, d), pool, d);
    ExactResemble(foreign, pool, d);
    UniqueResemble(FirstOfEachKey(ExactMatches(ledger, d)) + ExactMatches(foreign, d), pool, d);
  }

  lemma NearResemble(pool: seq<string>, d: string)
    ensures AllResemble(NearNumbers(pool, d), pool, d)
  {
    forall n | n in NearNumbers(pool, d) ensures Resembles(n, d) {
      OneDigitApartIsOneEdit(d, Digits(n));
    }
  }

  lemma OfferResembles(numbers: seq<string>, automatic: bool, pool: seq<string>, d: string)
    requires AllResemble(numbers, pool, d)
    ensures var m := Offer(numbers, automatic);
      |m.suggestions| <= LIMIT && (m.target.Some? ==> m.suggestions == []) && AllResemble(m.suggestions, pool, d)
  {
  }

  /** Every suggestion has the line's digits, or one digit more or fewer; a number of the same length
      with another digit is never suggested. */
  lemma SuggestionsResemble(number: string, same: seq<string>, ledger: seq<string>, foreign: seq<string>)
    ensures var m := MatchAdjustment(number, same, ledger, foreign);
      && |m.suggestions| <= LIMIT && (m.target.Some? ==> m.suggestions == [])
      && AllResemble(m.suggestions, same + ledger + foreign, Digits(number))
  {
    var d := Digits(number);
    var pool := same + ledger + foreign;
    ExactResemble(same, pool, d);
    UniqueResemble(ExactMatches(same, d), pool, d);
    LedgerResemble(ledger, foreign, pool, d);
    NearResemble(pool, d);
    UniqueResemble(NearNumbers(pool, d), pool, d);
    OfferResembles(SameWithDigits(same, d), true, pool, d);
    OfferResembles(LedgerWithDigits(ledger, foreign, d), FirstOfEachKey(ExactMatches(ledger, d)) != [], pool, d);
    OfferResembles(FirstOfEachKey(NearNumbers(pool, d)), false, pool, d);
  }

  // ----- the pools a payment's adjustments are matched against -----

  datatype Pools = Pools(same: seq<string>, ledger: seq<string>, foreign: seq<string>)

  function SameNumbers(lines: seq<LineItem>): seq<string> {
    if lines == [] then []
    else (if lines[0].kind == InvoiceLine && NumberKey(lines[0].number) != "" then [lines[0].number] else [])
         + SameNumbers(lines[1..])
  }

  /** Numbers of the listed invoices whose payer clearly differs from `payer`, or does not. */
  function ListedNumbers(
    invoices: map<string, Invoice>, listing: seq<string>, payer: string, differs: bool): seq<string> {
    if listing == [] then []
    else
      (if listing[0] in invoices && PayersDiffer(payer, invoices[listing[0]].payer) == differs
       then [invoices[listing[0]].number] else [])
      + ListedNumbers(invoices, listing[1..], payer, differs)
  }

  /** `listing` is the order in which the database lists its invoices. */
  function PoolsOf(invoices: map<string, Invoice>, listing: seq<string>, p: Payload): Pools {
    Pools(SameNumbers(p.lines),
          ListedNumbers(invoices, listing, p.header.payer, false),
          ListedNumbers(invoices, listing, p.header.payer, true))
  }

  function Match(pools: Pools, number: string): AdjustmentMatch {
    MatchAdjustment(number, pools.same, pools.ledger, pools.foreign)
  }

  predicate HasAdjustments(lines: seq<LineItem>) {
    exists i | 0 <= i < |lines| :: lines[i].kind == AdjustmentLine
  }

  function ResolveLine(pools: Pools, line: LineItem): LineItem {
    if line.kind == AdjustmentLine && line.appliesTo == "" && Match(pools, line.number).target.Some?
    then line.(appliesTo := Match(pools, line.number).target.value)
    else line
  }

  /** `resolve_adjustments`: fill the target where exactly one invoice matches by digits. Nothing else
      of the payload changes, and no line starts to reduce an invoice that is only another payer's. */
  method ResolveAdjustments(invoices: map<string, Invoice>, listing: seq<string>, p: Payload) returns (r: Payload)
    ensures r == p.(lines := r.lines) && |r.lines| == |p.lines|
    ensures forall i | 0 <= i < |p.lines| :: r.lines[i] == ResolveLine(PoolsOf(invoices, listing, p), p.lines[i])
    ensures forall i | 0 <= i < |p.lines| && r.lines[i] != p.lines[i] ::
      var pools := PoolsOf(invoices, listing, p);
      && p.lines[i].kind == AdjustmentLine && p.lines[i].appliesTo == ""
      && r.lines[i].appliesTo in pools.same + pools.ledger
      && Digits(r.lines[i].appliesTo) == Digits(p.lines[i].number)
  {
    var pools := PoolsOf(invoices, listing, p);
    if !HasAdjustments(p.lines) {
      return p;
    }
    var lines: seq<LineItem> := [];
    for i := 0 to |p.lines|
      invariant |lines| == i
      invariant forall j | 0 <= j < i ::
        && lines[j] == ResolveLine(pools, p.lines[j])
        && (lines[j] != p.lines[j] ==>
              && p.lines[j].kind == AdjustmentLine && p.lines[j].appliesTo == ""
              && lines[j].appliesTo in pools.same + pools.ledger
              && Digits(lines[j].appliesTo) == Digits(p.lines[j].number))
    {
      var line := p.lines[i];
      if line.kind == AdjustmentLine && line.appliesTo == "" {
        var found := Match(pools, line.number);
        TargetIsUniqueAndOwn(line.number, pools.same, pools.ledger, pools.foreign);
        if found.target.Some? {
          line := line.(appliesTo := found.target.value);
        }
      }
      lines := lines + [line];
    }
    return p.(lines := lines);
  }

  // ----- flags -----

  function AdjustmentFlag(pools: Pools, i: nat, line: LineItem): seq<Flag> {
    var amount := Deducted(line.deductions);
    if line.kind != AdjustmentLine then []
    else if line.appliesTo != "" then
      if HasKey(pools.same + pools.ledger + pools.foreign, NumberKey(line.appliesTo)) then []
      else [AdjustsUnknown(i, amount, line.appliesTo)]
    else
      var found := Match(pools, line.number);
      [WhichInvoice(i, amount, if found.target.Some? then [found.target.value] else found.suggestions)]
  }

  function AdjustmentFlagsUpTo(pools: Pools, lines: seq<LineItem>, n: nat): seq<Flag>
    requires n <= |lines|
  {
    if n == 0 then [] else AdjustmentFlagsUpTo(pools, lines, n - 1) + AdjustmentFlag(pools, n - 1, lines[n - 1])
  }

  function AdjustmentFlags(invoices: map<string, Invoice>, listing: seq<string>, p: Payload): seq<Flag> {
    AdjustmentFlagsUpTo(PoolsOf(invoices, listing, p), p.lines, |p.lines|)
  }

  method FlagAdjustments(invoices: map<string, Invoice>, listing: seq<string>, p: Payload) returns (flags: seq<Flag>)
    ensures flags == AdjustmentFlags(invoices, listing, p)
  {
    var pools := PoolsOf(invoices, listing, p);
    if !HasAdjustments(p.lines) {
      NoAdjustmentNoFlag(pools, p.lines, |p.lines|);
      return [];
    }
    flags := [];
    for i := 0 to |p.lines|
      invariant flags == AdjustmentFlagsUpTo(pools, p.lines, i)
    {
      flags := flags + AdjustmentFlag(pools, i, p.lines[i]);
    }
  }

  lemma {:induction false} NoAdjustmentNoFlag(pools: Pools, lines: seq<LineItem>, n: nat)
    requires n <= |lines|
    requires forall i | 0 <= i < n :: lines[i].kind == InvoiceLine
    ensures AdjustmentFlagsUpTo(pools, lines, n) == []
  {
    if n > 0 { NoAdjustmentNoFlag(pools, lines, n - 1); }
  }
}
