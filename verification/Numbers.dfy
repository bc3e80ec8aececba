/** Printed amounts (ar_pipeline/tables/numbers.py and ar_pipeline/ledger/money.py). Digits are ASCII. */
module Numbers {
  import opened Models
  import opened Matching

  /** `units` / 10^`scale`. */
  datatype Decimal = Decimal(units: int, scale: nat)

  function Pow10(n: nat): (p: nat)
    ensures p > 0
  {
    if n == 0 then 1 else 10 * Pow10(n - 1)
  }

  function Negate(d: Option<Decimal>): Option<Decimal> {
    if d.None? then None else Some(Decimal(-d.value.units, d.value.scale))
  }

  // ----- numerals -----

  function DigitChar(d: nat): char
    requires d < 10
  {
    ('0' as int + d) as char
  }

  function DigitOf(c: char): nat
    requires IsDigit(c)
  {
    c as int - '0' as int
  }

  predicate AllDigits(s: string) { forall i | 0 <= i < |s| :: IsDigit(s[i]) }

  function Numeral(s: string): nat
    requires AllDigits(s)
  {
    if s == "" then 0 else 10 * Numeral(s[..|s| - 1]) + DigitOf(s[|s| - 1])
  }

  function DecimalText(n: nat): (s: string)
    ensures s != "" && AllDigits(s) && Numeral(s) == n
  {
    if n < 10 then [DigitChar(n)]
    else
      var front := DecimalText(n / 10);
      assert (front + [DigitChar(n % 10)])[..|front|] == front;
      front + [DigitChar(n % 10)]
  }

  // ----- parse_amount -----

  const RUPEE_SIGN: char := '\U{20B9}'

  predicate StartsRs(s: string) { |s| >= 2 && LowerChar(s[0]) == 'r' && LowerChar(s[1]) == 's' }

  predicate StartsInr(s: string) {
    |s| >= 3 && LowerChar(s[0]) == 'i' && LowerChar(s[1]) == 'n' && LowerChar(s[2]) == 'r'
  }

  /** Every "Rs", "Rs.", "INR" and rupee sign removed, in any case, from left to right. */
  function StripCurrency(s: string): string
    decreases |s|
  {
    if s == "" then ""
    else if StartsRs(s) then StripCurrency(if |s| > 2 && s[2] == '.' then s[3..] else s[2..])
    else if StartsInr(s) then StripCurrency(s[3..])
    else if s[0] == RUPEE_SIGN then StripCurrency(s[1..])
    else [s[0]] + StripCurrency(s[1..])
  }

  function Remove(s: string, c: char): string {
    if s == "" then "" else (if s[0] == c then "" else [s[0]]) + Remove(s[1..], c)
  }

  function Cleaned(raw: string): string { Remove(Trim(StripCurrency(raw)), ' ') }

  predicate HasEmptyGroup(s: string) {
    (s != "" && (s[0] == ',' || s[|s| - 1] == ',')) || exists i | 0 <= i < |s| - 1 :: s[i] == ',' && s[i + 1] == ','
  }

  function DotAt(s: string): (d: nat)
    ensures d <= |s| && (forall i | 0 <= i < d :: s[i] != '.') && (d < |s| ==> s[d] == '.')
  {
    if s == "" || s[0] == '.' then 0 else 1 + DotAt(s[1..])
  }

  /** Digits with an optional fraction, and nothing else. */
  function NumberIn(s: string): Option<Decimal> {
    var d := DotAt(s);
    var whole, fraction := s[..d], if d < |s| then s[d + 1..] else "";
    if whole == "" || !AllDigits(whole) || !AllDigits(fraction) || (d < |s| && fraction == "") then None
    else Some(Decimal(Numeral(whole + fraction), |fraction|))
  }

  function PlainAmount(s: string): Option<Decimal> {
    if HasEmptyGroup(s) then None else NumberIn(Remove(s, ','))
  }

  datatype Signed = Signed(negative: bool, text: string)

  function Unwrap(s: Signed): Signed {
    var t := s.text;
    if t != "" && t[0] == '(' && t[|t| - 1] == ')' then Signed(true, t[1..|t| - 1]) else s
  }

  function DropSlash(s: Signed): Signed {
    var t := s.text;
    if EndsWith(t, "/-") then s.(text := t[..|t| - 2])
    else if EndsWith(t, "/") then s.(text := t[..|t| - 1])
    else s
  }

  function DropSigns(s: Signed): Signed {
    var t := if EndsWith(s.text, "-") then Signed(true, s.text[..|s.text| - 1]) else s;
    if t.text != "" && t.text[0] == '-' then Signed(true, t.text[1..]) else t
  }

  function SignedAmount(s: Signed): Option<Decimal> {
    if s.negative then Negate(PlainAmount(s.text)) else PlainAmount(s.text)
  }

  function CleanAmount(s: string): Option<Decimal> {
    if s == "" then None else SignedAmount(DropSigns(DropSlash(Unwrap(Signed(false, s)))))
  }

  function AmountIn(raw: string): Option<Decimal> { CleanAmount(Cleaned(raw)) }

  /** `parse_amount`; a missing cell (None) gives None. */
  method ParseAmount(raw: Option<string>) returns (amount: Option<Decimal>)
    ensures amount == if raw.None? then None else AmountIn(raw.value)
  {
    hide Cleaned, HasEmptyGroup, NumberIn, Remove, Unwrap, DropSlash, DropSigns;
    if raw.None? {
      return None;
    }
    var s := Cleaned(raw.value);
    if s == "" {
      return None;
    }
    var negative;
    negative, s := SplitSign(s);
    if HasEmptyGroup(s) {
      return None;
    }
    amount := NumberIn(Remove(s, ','));
    if negative {
      amount := Negate(amount);
    }
  }

  /** The brackets, slash and minus signs taken off, in the order `parse_amount` looks for them. */
  method SplitSign(text: string) returns (negative: bool, s: string)
    requires text != ""
    ensures Signed(negative, s) == DropSigns(DropSlash(Unwrap(Signed(false, text))))
  {
    hide EndsWith;
    negative, s := false, text;
    if s[0] == '(' && s[|s| - 1] == ')' {
      negative, s := true, s[1..|s| - 1];
    }
    if EndsWith(s, "/-") {
      EndsFit(s, "/-");
      s := s[..|s| - 2];
    } else if EndsWith(s, "/") {
      EndsFit(s, "/");
      s := s[..|s| - 1];
    }
    if EndsWith(s, "-") {
      EndsFit(s, "-");
      negative, s := true, s[..|s| - 1];
    }
    if s != "" && s[0] == '-' {
      negative, s := true, s[1..];
    }
  }

  lemma EndsFit(s: string, tail: string)
    requires EndsWith(s, tail)
    ensures |tail| <= |s|
  {
  }

  /** A parsed amount in paise; a third and later decimal is cut off. */
  function ToPaise(d: Decimal): Money {
    if d.scale <= 2 then d.units * Pow10(2 - d.scale)
    else if d.units < 0 then -((-d.units) / Pow10(d.scale - 2)) else d.units / Pow10(d.scale - 2)
  }

  // ----- format_money -----

  function HeadGroups(head: string): string
    decreases |head|
  {
    if |head| <= 2 then head else HeadGroups(head[..|head| - 2]) + "," + head[|head| - 2..]
  }

  /** Indian digit grouping: a last group of three, the others of two. */
  function Grouped(whole: string): string {
    if |whole| <= 3 then whole else HeadGroups(whole[..|whole| - 3]) + "," + whole[|whole| - 3..]
  }

  function JoinCommas(groups: seq<string>): string {
    if groups == [] then "" else if |groups| == 1 then groups[0] else groups[0] + "," + JoinCommas(groups[1..])
  }

  /** `_indian_grouping`. */
  method IndianGrouping(whole: string) returns (r: string)
    ensures r == Grouped(whole)
  {
    if |whole| <= 3 {
      return whole;
    }
    var head, tail := whole[..|whole| - 3], whole[|whole| - 3..];
    var groups: seq<string> := [];
    while |head| > 2
      invariant head != ""
      invariant HeadGroups(whole[..|whole| - 3])
             == if groups == [] then HeadGroups(head) else HeadGroups(head) + "," + JoinCommas(groups)
      decreases |head|
    {
      var group := head[|head| - 2..];
      assert ([group] + groups)[1..] == groups;
      if groups != [] {
        assert HeadGroups(head[..|head| - 2]) + "," + group + ("," + JoinCommas(groups))
            == HeadGroups(head[..|head| - 2]) + "," + (group + "," + JoinCommas(groups));
      }
      groups := [group] + groups;
      head := head[..|head| - 2];
    }
    assert ([head] + groups)[1..] == groups;
    groups := [head] + groups;
    r := JoinCommas(groups) + "," + tail;
  }

  /** An amount of `n` paise: grouped rupees, a point, and two digits. */
  function RupeeText(n: nat): string {
    Grouped(DecimalText(n / 100)) + "." + [DigitChar(n / 10 % 10), DigitChar(n % 10)]
  }

  /** `format_money` in rupees. */
  function FormatRupees(amount: Money): string {
    (if amount < 0 then "-" else "") + [RUPEE_SIGN] + RupeeText(Abs(amount))
  }

  // ----- the layout of grouped digits -----

  /** Counting from the right end, commas stand exactly at the positions 3, 6, 9, ... */
  ghost predicate CommasEvery3(s: string) {
    forall j | 0 <= j < |s| ::
      if |s| - 1 - j >= 3 && (|s| - 1 - j) % 3 == 0 then s[j] == ',' else IsDigit(s[j])
  }

  ghost predicate CommasEvery3From2(s: string) {
    forall j | 0 <= j < |s| :: if (|s| - 1 - j) % 3 == 2 then s[j] == ',' else IsDigit(s[j])
  }

  lemma {:induction false} HeadLayout(head: string)
    requires AllDigits(head) && head != ""
    ensures var r := HeadGroups(head); r != "" && CommasEvery3From2(r) && IsDigit(r[0])
  {
    if |head| > 2 {
      HeadLayout(head[..|head| - 2]);
      PairAppended(HeadGroups(head[..|head| - 2]), head[|head| - 2..]);
    }
  }

  lemma PairAppended(f: string, pair: string)
    requires CommasEvery3From2(f) && |pair| == 2 && AllDigits(pair)
    ensures CommasEvery3From2(f + "," + pair)
  {
    var r := f + "," + pair;
    forall j | 0 <= j < |r| ensures if (|r| - 1 - j) % 3 == 2 then r[j] == ',' else IsDigit(r[j]) {
      if j < |f| { assert r[j] == f[j]; }
    }
  }

  lemma TripleAppended(f: string, triple: string)
    requires CommasEvery3From2(f) && |triple| == 3 && AllDigits(triple)
    ensures CommasEvery3(f + "," + triple)
  {
    var r := f + "," + triple;
    forall j | 0 <= j < |r|
      ensures if |r| - 1 - j >= 3 && (|r| - 1 - j) % 3 == 0 then r[j] == ',' else IsDigit(r[j])
    {
      if j < |f| { assert r[j] == f[j]; }
    }
  }

  lemma RemoveBetween(a: string, b: string)
    requires AllDigits(b)
    ensures Remove(a + "," + b, ',') == Remove(a, ',') + b
  {
    assert Remove(",", ',') == "";
    hide Remove;
    RemoveConcat(a + ",", b, ',');
    RemoveConcat(a, ",", ',');
    NoneToRemove(b, ',');
  }

  lemma {:induction false} HeadDigits(head: string)
    requires AllDigits(head)
    ensures Remove(HeadGroups(head), ',') == head
  {
    hide Remove;
    if |head| <= 2 {
      NoneToRemove(head, ',');
    } else {
      HeadDigits(head[..|head| - 2]);
      RemoveBetween(HeadGroups(head[..|head| - 2]), head[|head| - 2..]);
    }
  }

  /** Grouping only inserts single commas: they stand, counting from the right, before the last three
      digits and before each pair further left, and removing them gives the digits back. */
  lemma GroupingLayout(whole: string)
    requires AllDigits(whole) && whole != ""
    ensures var r := Grouped(whole); CommasEvery3(r) && r != "" && IsDigit(r[0]) && Remove(r, ',') == whole
  {
    if |whole| <= 3 {
      NoneToRemove(whole, ',');
    } else {
      var head, tail := whole[..|whole| - 3], whole[|whole| - 3..];
      HeadLayout(head);
      TripleAppended(HeadGroups(head), tail);
      HeadDigits(head);
      RemoveBetween(HeadGroups(head), tail);
    }
  }

  lemma {:induction false} RemoveConcat(a: string, b: string, c: char)
    ensures Remove(a + b, c) == Remove(a, c) + Remove(b, c)
  {
    if a == "" {
      assert a + b == b;
    } else {
      assert (a + b)[1..] == a[1..] + b;
      RemoveConcat(a[1..], b, c);
    }
  }

  lemma {:induction false} NoneToRemove(s: string, c: char)
    requires forall i | 0 <= i < |s| :: s[i] != c
    ensures Remove(s, c) == s
  {
    if s != "" { NoneToRemove(s[1..], c); }
  }

  // ----- printing and parsing undo each other -----

  /** Digits, commas and points: a text without sign, currency or space. */
  predicate IsPlainChar(c: char) { IsDigit(c) || c == ',' || c == '.' }

  predicate IsPlain(s: string) { s != "" && forall i | 0 <= i < |s| :: IsPlainChar(s[i]) }

  /** Characters that cleaning leaves alone. */
  predicate IsKept(c: char) { IsPlainChar(c) || c == '-' || c == '(' || c == ')' || c == '/' }

  lemma {:induction false} NothingToStrip(s: string)
    requires forall i | 0 <= i < |s| :: IsKept(s[i])
    ensures StripCurrency(s) == s
  {
    if s != "" { NothingToStrip(s[1..]); }
  }

  lemma CleanedKept(s: string)
    requires forall i | 0 <= i < |s| :: IsKept(s[i])
    ensures Cleaned(s) == s
  {
    NothingToStrip(s);
    NoneToRemove(s, ' ');
  }

  lemma LastChar(t: string, tail: string)
    requires EndsWith(t, tail) && tail != ""
    ensures t != "" && t[|t| - 1] == tail[|tail| - 1]
    ensures |tail| == 2 ==> |t| >= 2 && t[|t| - 2] == tail[0]
  {
    assert t[|t| - |tail|..] == tail;
  }

  /** A plain text, also behind a minus sign, has nothing to drop at its end. */
  lemma PlainEnd(t: string)
    requires t != "" && IsPlainChar(t[|t| - 1])
    ensures !EndsWith(t, "/-") && !EndsWith(t, "/") && !EndsWith(t, "-")
  {
    if EndsWith(t, "/-") { LastChar(t, "/-"); }
    if EndsWith(t, "/") { LastChar(t, "/"); }
    if EndsWith(t, "-") { LastChar(t, "-"); }
  }

  lemma PlainForm(s: string)
    requires IsPlain(s)
    ensures CleanAmount(s) == PlainAmount(s)
    ensures CleanAmount(s + "/-") == PlainAmount(s)
  {
    hide PlainAmount, Negate, EndsWith;
    PlainEnd(s);
    assert EndsWith(s + "/-", "/-") by { SuffixEnds(s, "/-"); }
    assert (s + "/-")[..|s|] == s;
  }

  lemma SuffixEnds(s: string, tail: string)
    ensures EndsWith(s + tail, tail)
  {
    assert (s + tail)[|s|..] == tail;
  }

  lemma Bracketed(s: string)
    requires IsPlain(s)
    ensures CleanAmount("(" + s + ")") == Negate(PlainAmount(s))
  {
    hide PlainAmount, Negate, EndsWith;
    var t := "(" + s + ")";
    assert t[1..|t| - 1] == s;
    assert t[|t| - 1] == ')';
    PlainEnd(s);
  }

  lemma MinusBehind(s: string)
    requires IsPlain(s)
    ensures CleanAmount(s + "-") == Negate(PlainAmount(s))
  {
    hide PlainAmount, Negate, EndsWith;
    var t := s + "-";
    assert t[..|t| - 1] == s;
    SuffixEnds(s, "-");
    if EndsWith(t, "/-") { LastChar(t, "/-"); }
    if EndsWith(t, "/") { LastChar(t, "/"); }
  }

  lemma MinusInFront(s: string)
    requires IsPlain(s)
    ensures CleanAmount("-" + s) == Negate(PlainAmount(s))
  {
    hide PlainAmount, Negate, EndsWith;
    var t := "-" + s;
    assert t[1..] == s;
    PlainEnd(t);
  }

  /** The accountant's forms of a negative amount: "(s)", "s-" and "-s" all parse to minus the value of a
      plain text `s`, to nothing when `s` parses to nothing, and "s/-" parses like `s`. */
  lemma SignedForms(s: string)
    requires IsPlain(s)
    ensures AmountIn("(" + s + ")") == AmountIn(s + "-") == AmountIn("-" + s) == Negate(AmountIn(s))
    ensures AmountIn(s + "/-") == AmountIn(s) == PlainAmount(s)
  {
    CleanedKept(s);
    CleanedKept("(" + s + ")");
    CleanedKept(s + "-");
    CleanedKept("-" + s);
    CleanedKept(s + "/-");
    hide Cleaned, CleanAmount, PlainAmount, Negate;
    PlainForm(s);
    Bracketed(s);
    MinusBehind(s);
    MinusInFront(s);
  }

  /** A second sign does not undo the first: brackets around a negative amount keep it negative. */
  lemma BracketsKeepNegative(s: string)
    requires IsPlain(s)
    ensures AmountIn("(-" + s + ")") == AmountIn("-" + s)
  {
    var t := "(-" + s + ")";
    CleanedKept(t);
    CleanedKept("-" + s);
    hide Cleaned, PlainAmount, Negate, EndsWith;
    assert t[1..|t| - 1] == "-" + s;
    assert t[|t| - 1] == ')';
    assert ("-" + s)[1..] == s;
    PlainEnd("-" + s);
    MinusInFront(s);
  }

  /** `parse_amount(format_money(x, "INR"))` is x, for every amount in whole paise. */
  lemma PrintParseRoundTrip(amount: Money)
    ensures AmountIn(FormatRupees(amount)) == Some(Decimal(amount, 2))
  {
    hide AmountIn, PlainAmount;
    PrintedText(Abs(amount));
    PrintedForm(RupeeText(Abs(amount)), amount);
    assert FormatRupees(amount) == (if amount < 0 then "-" else "") + [RUPEE_SIGN] + RupeeText(Abs(amount));
  }

  lemma PrintedText(n: nat)
    ensures IsPlain(RupeeText(n)) && PlainAmount(RupeeText(n)) == Some(Decimal(n, 2))
  {
    hide IsPlain, PlainAmount, Grouped, DecimalText, CommasEvery3, HasEmptyGroup;
    var whole, fraction := DecimalText(n / 100), [DigitChar(n / 10 % 10), DigitChar(n % 10)];
    GroupingLayout(whole);
    PrintedIsPlain(Grouped(whole), fraction);
    PrintedValue(whole, fraction, n);
  }

  lemma PrintedForm(text: string, amount: Money)
    requires IsPlain(text) && PlainAmount(text) == Some(Decimal(Abs(amount), 2))
    ensures AmountIn((if amount < 0 then "-" else "") + [RUPEE_SIGN] + text) == Some(Decimal(amount, 2))
  {
    hide PlainAmount, CleanAmount;
    CurrencyInFront(text);
    CleanedKept(text);
    CleanedKept("-" + text);
    PlainForm(text);
    MinusInFront(text);
    assert "" + [RUPEE_SIGN] + text == [RUPEE_SIGN] + text;
  }

  lemma CurrencyInFront(text: string)
    ensures StripCurrency([RUPEE_SIGN] + text) == StripCurrency(text)
    ensures StripCurrency("-" + [RUPEE_SIGN] + text) == "-" + StripCurrency(text)
    ensures StripCurrency("-" + text) == "-" + StripCurrency(text)
  {
    assert ([RUPEE_SIGN] + text)[1..] == text;
    assert ("-" + [RUPEE_SIGN] + text)[1..] == [RUPEE_SIGN] + text;
    assert ("-" + text)[1..] == text;
  }

  lemma LayoutChars(s: string, j: nat)
    requires CommasEvery3(s) && j < |s|
    ensures IsDigit(s[j]) || s[j] == ','
    ensures s[j] == ',' ==> j + 1 < |s| && IsDigit(s[j + 1])
  {
    if s[j] == ',' { assert |s| - 1 - j >= 3 && (|s| - 1 - (j + 1)) % 3 != 0; }
  }

  lemma PrintedIsPlain(grouped: string, fraction: string)
    requires grouped != "" && CommasEvery3(grouped) && IsDigit(grouped[0]) && fraction != "" && AllDigits(fraction)
    ensures IsPlain(grouped + "." + fraction) && !HasEmptyGroup(grouped + "." + fraction)
  {
    var text := grouped + "." + fraction;
    forall i | 0 <= i < |text| ensures IsPlainChar(text[i]) {
      if i < |grouped| { LayoutChars(grouped, i); }
    }
    forall i | 0 <= i < |text| - 1 && text[i] == ',' ensures text[i + 1] != ',' {
      if i < |grouped| { LayoutChars(grouped, i); }
    }
  }

  lemma PrintedValue(whole: string, fraction: string, n: nat)
    requires whole == DecimalText(n / 100) && fraction == [DigitChar(n / 10 % 10), DigitChar(n % 10)]
    requires Remove(Grouped(whole), ',') == whole && !HasEmptyGroup(Grouped(whole) + "." + fraction)
    ensures PlainAmount(Grouped(whole) + "." + fraction) == Some(Decimal(n, 2))
  {
    hide HasEmptyGroup, DecimalText, Grouped, NumberIn, Remove, Numeral;
    CommasRemoved(Grouped(whole), fraction);
    WholeAndFraction(whole, fraction);
    TwoMoreDigits(whole, n / 10 % 10, n % 10);
  }

  lemma CommasRemoved(grouped: string, fraction: string)
    requires AllDigits(fraction)
    ensures Remove(grouped + "." + fraction, ',') == Remove(grouped, ',') + "." + fraction
  {
    hide Remove;
    RemoveConcat(grouped + ".", fraction, ',');
    RemoveConcat(grouped, ".", ',');
    NoneToRemove(".", ',');
    NoneToRemove(fraction, ',');
  }

  lemma WholeAndFraction(whole: string, fraction: string)
    requires AllDigits(whole) && AllDigits(fraction) && whole != "" && fraction != ""
    ensures AllDigits(whole + fraction)
    ensures NumberIn(whole + "." + fraction) == Some(Decimal(Numeral(whole + fraction), |fraction|))
  {
    var plain := whole + "." + fraction;
    assert plain[|whole|] == '.';
    assert DotAt(plain) == |whole|;
    assert plain[..|whole|] == whole && plain[|whole| + 1..] == fraction;
  }

  lemma TwoMoreDigits(s: string, a: nat, b: nat)
    requires AllDigits(s) && a < 10 && b < 10
    ensures AllDigits(s + [DigitChar(a), DigitChar(b)])
    ensures Numeral(s + [DigitChar(a), DigitChar(b)]) == 100 * Numeral(s) + 10 * a + b
  {
    var t := s + [DigitChar(a), DigitChar(b)];
    assert t[..|t| - 1] == s + [DigitChar(a)];
    assert (s + [DigitChar(a)])[..|s|] == s;
  }
}
