/** The amount in words of a payment advice (ar_pipeline/tables/words.py).

    Words are taken after the text has been cut into lower-case letters: one constructor stands for all
    spellings of a word, and `OtherWord` for any word outside the vocabulary. Amounts are in paise. */
module Words {
  import opened Models

  type Below20 = n: nat | n < 20

  type TensDigit = n: nat | 2 <= n <= 9 witness 2

  datatype Word =
    | Unit(n: Below20) | Tens(digit: TensDigit) | Hundred | Thousand | Lakh | Crore
    | Rupee | Paise | And | Only | OtherWord

  predicate IsFiller(w: Word) { w == And || w == Only }

  predicate IsScale(w: Word) { w == Thousand || w == Lakh || w == Crore }

  function Scale(w: Word): nat
    requires IsScale(w)
  {
    if w == Thousand then 1000 else if w == Lakh then 100000 else 10000000
  }

  // ----- reading number words -----

  /** `_value`'s variables; None once a word is not a number word. */
  datatype Reading = Reading(total: nat, current: nat, seen: bool)

  function OrOne(n: nat): nat { if n == 0 then 1 else n }

  function Read(s: Option<Reading>, w: Word): Option<Reading> {
    if s.None? || IsFiller(w) then s
    else
      var Reading(total, current, _) := s.value;
      match w
      case Unit(n) => Some(Reading(total, current + n, true))
      case Tens(d) => Some(Reading(total, current + 10 * d, true))
      case Hundred => Some(Reading(total, OrOne(current) * 100, true))
      case Thousand => Some(Reading(total + OrOne(current) * 1000, 0, true))
      case Lakh => Some(Reading(total + OrOne(current) * 100000, 0, true))
      case Crore => Some(Reading(total + OrOne(current) * 10000000, 0, true))
      case _ => None
  }

  function ReadAll(s: Option<Reading>, words: seq<Word>): Option<Reading> {
    if words == [] then s else Read(ReadAll(s, words[..|words| - 1]), words[|words| - 1])
  }

  function ValueOf(words: seq<Word>): Option<nat> {
    match ReadAll(Some(Reading(0, 0, false)), words)
    case Some(Reading(total, current, true)) => Some(total + current)
    case _ => None
  }

  /** `_value`. */
  method Value(words: seq<Word>) returns (r: Option<nat>)
    ensures r == ValueOf(words)
  {
    var total: nat, current: nat, seen := 0, 0, false;
    for i := 0 to |words|
      invariant ReadAll(Some(Reading(0, 0, false)), words[..i]) == Some(Reading(total, current, seen))
    {
      assert words[..i + 1][..i] == words[..i];
      var w := words[i];
      match w {
        case Unit(n) => current := current + n;
        case Tens(d) => current := current + 10 * d;
        case Hundred => current := OrOne(current) * 100;
        case Thousand => total, current := total + OrOne(current) * 1000, 0;
        case Lakh => total, current := total + OrOne(current) * 100000, 0;
        case Crore => total, current := total + OrOne(current) * 10000000, 0;
        case And => continue;
        case Only => continue;
        case _ =>
          FailureStays(words, i + 1);
          return None;
      }
      seen := true;
    }
    assert words[..|words|] == words;
    r := if seen then Some(total + current) else None;
  }

  lemma {:induction false} FailureStays(words: seq<Word>, i: nat)
    requires i <= |words| && ReadAll(Some(Reading(0, 0, false)), words[..i]).None?
    ensures ReadAll(Some(Reading(0, 0, false)), words).None?
  {
    if i < |words| {
      assert words[..|words| - 1][..i] == words[..i];
      FailureStays(words[..|words| - 1], i);
    } else {
      assert words[..i] == words;
    }
  }

  lemma {:induction false} ReadConcat(s: Option<Reading>, a: seq<Word>, b: seq<Word>)
    ensures ReadAll(s, a + b) == ReadAll(ReadAll(s, a), b)
  {
    if b == [] {
      assert a + b == a;
    } else {
      assert (a + b)[..|a + b| - 1] == a + b[..|b| - 1];
      ReadConcat(s, a, b[..|b| - 1]);
    }
  }

  function WithoutFillers(words: seq<Word>): seq<Word> {
    if words == [] then []
    else
      WithoutFillers(words[..|words| - 1])
      + if IsFiller(words[|words| - 1]) then [] else [words[|words| - 1]]
  }

  /** "and" and "only" anywhere in the words change nothing. */
  lemma {:induction false} FillersChangeNothing(s: Option<Reading>, words: seq<Word>)
    ensures ReadAll(s, words) == ReadAll(s, WithoutFillers(words))
  {
    if words != [] {
      var front, w := words[..|words| - 1], words[|words| - 1];
      FillersChangeNothing(s, front);
      if !IsFiller(w) {
        assert WithoutFillers(words)[..|WithoutFillers(words)| - 1] == WithoutFillers(front);
      } else {
        assert WithoutFillers(words) == WithoutFillers(front);
      }
    }
  }

  // ----- the Indian words of a number -----

  function SpellBelow100(n: nat): seq<Word>
    requires n < 100
  {
    if n < 20 then [Unit(n)] else if n % 10 == 0 then [Tens(n / 10)] else [Tens(n / 10), Unit(n % 10)]
  }

  function SpellBelow1000(n: nat): seq<Word>
    requires n < 1000
  {
    if n < 100 then SpellBelow100(n)
    else [Unit(n / 100), Hundred] + if n % 100 == 0 then [] else SpellBelow100(n % 100)
  }

  function SpellPart(count: nat, scale: Word): seq<Word>
    requires count < 1000
  {
    if count == 0 then [] else SpellBelow1000(count) + [scale]
  }

  const LIMIT := 10000000000

  function Spell(n: nat): seq<Word>
    requires n < LIMIT
  {
    if n == 0 then [Unit(0)]
    else
      SpellPart(n / 10000000, Crore) + SpellPart(n / 100000 % 100, Lakh) + SpellPart(n / 1000 % 100, Thousand)
      + if n % 1000 == 0 then [] else SpellBelow1000(n % 1000)
  }

  lemma ReadBelow100(total: nat, current: nat, seen: bool, n: nat)
    requires n < 100
    ensures ReadAll(Some(Reading(total, current, seen)), SpellBelow100(n)) == Some(Reading(total, current + n, true))
  {
    var s := Some(Reading(total, current, seen));
    var words := SpellBelow100(n);
    assert words[..1][..0] == [];
    if |words| == 2 {
      assert ReadAll(s, words[..1]) == Some(Reading(total, current + 10 * (n / 10), true));
    } else {
      assert words[..0] == [];
    }
  }

  lemma ReadBelow1000(total: nat, seen: bool, n: nat)
    requires n < 1000
    ensures ReadAll(Some(Reading(total, 0, seen)), SpellBelow1000(n)) == Some(Reading(total, n, true))
  {
    var s := Some(Reading(total, 0, seen));
    if n < 100 {
      ReadBelow100(total, 0, seen, n);
    } else {
      var head: seq<Word> := [Unit(n / 100), Hundred];
      assert head[..1][..0] == [];
      assert ReadAll(s, head[..1]) == Some(Reading(total, n / 100, true));
      assert ReadAll(s, head) == Some(Reading(total, 100 * (n / 100), true));
      if n % 100 == 0 {
        assert head + [] == head;
      } else {
        ReadConcat(s, head, SpellBelow100(n % 100));
        ReadBelow100(total, 100 * (n / 100), true, n % 100);
      }
    }
  }

  lemma ReadPart(total: nat, seen: bool, count: nat, scale: Word)
    requires count < 1000 && IsScale(scale)
    ensures ReadAll(Some(Reading(total, 0, seen)), SpellPart(count, scale))
         == Some(Reading(total + count * Scale(scale), 0, seen || count > 0))
  {
    hide SpellBelow1000;
    if count > 0 {
      var words := SpellBelow1000(count);
      ReadBelow1000(total, seen, count);
      assert (words + [scale])[..|words|] == words;
    }
  }

  lemma Places(n: nat)
    requires n < LIMIT
    ensures n / 10000000 < 1000
    ensures n / 10000000 * 10000000 + n / 100000 % 100 * 100000 + n / 1000 % 100 * 1000 == n - n % 1000
  {
    var thousands := n / 1000;
    assert n == 1000 * thousands + n % 1000;
    assert n / 100000 == thousands / 100 && n / 10000000 == thousands / 100 / 100;
  }

  lemma ReadScaledParts(a: nat, b: nat, c: nat)
    requires a < 1000 && b < 100 && c < 100
    ensures ReadAll(Some(Reading(0, 0, false)), SpellPart(a, Crore) + SpellPart(b, Lakh) + SpellPart(c, Thousand))
         == Some(Reading(a * 10000000 + b * 100000 + c * 1000, 0, a > 0 || b > 0 || c > 0))
  {
    hide SpellPart, Read;
    var s := Some(Reading(0, 0, false));
    var pa, pb, pc := SpellPart(a, Crore), SpellPart(b, Lakh), SpellPart(c, Thousand);
    ReadPart(0, false, a, Crore);
    ReadConcat(s, pa, pb);
    ReadPart(a * 10000000, a > 0, b, Lakh);
    ReadConcat(s, pa + pb, pc);
    ReadPart(a * 10000000 + b * 100000, a > 0 || b > 0, c, Thousand);
  }

  /** What `_value`'s variables hold after the words of `n`: the part below a thousand is still current. */
  lemma ReadSpelled(n: nat)
    requires n < LIMIT
    ensures ReadAll(Some(Reading(0, 0, false)), Spell(n)) == Some(Reading(n - n % 1000, n % 1000, true))
  {
    hide SpellPart, SpellBelow1000;
    var s := Some(Reading(0, 0, false));
    if n == 0 {
      assert Spell(0)[..0] == [];
    } else {
      hide ReadAll;
      var a, b, c := n / 10000000, n / 100000 % 100, n / 1000 % 100;
      var parts := SpellPart(a, Crore) + SpellPart(b, Lakh) + SpellPart(c, Thousand);
      Places(n);
      ReadScaledParts(a, b, c);
      if n % 1000 == 0 {
        assert parts + [] == parts;
      } else {
        ReadConcat(s, parts, SpellBelow1000(n % 1000));
        ReadBelow1000(n - n % 1000, a > 0 || b > 0 || c > 0, n % 1000);
      }
    }
  }

  /** Reading undoes spelling, for every number of up to 999 crore and however many fillers. */
  lemma SpellingRoundTrip(n: nat, words: seq<Word>)
    requires n < LIMIT && WithoutFillers(words) == Spell(n)
    ensures ValueOf(words) == Some(n)
  {
    hide Spell, ReadAll, WithoutFillers;
    FillersChangeNothing(Some(Reading(0, 0, false)), words);
    ReadSpelled(n);
  }

  lemma ReadOneMore(s: Option<Reading>, words: seq<Word>, w: Word)
    ensures ReadAll(s, words + [w]) == Read(ReadAll(s, words), w)
  {
    assert (words + [w])[..|words|] == words;
  }

  /** The bound is real: a crore count is read back exactly when it is from 1 to 999. A larger count, such
      as "one thousand crore", loses its thousands to the wrong scale, and "zero crore" is read as one. */
  lemma CroreCountBound(count: nat)
    requires count < LIMIT
    ensures ValueOf(Spell(count) + [Crore]) == Some(count * 10000000) <==> 1 <= count < 1000
  {
    hide Spell, ReadAll;
    var rest := count % 1000;
    ReadSpelled(count);
    ReadOneMore(Some(Reading(0, 0, false)), Spell(count), Crore);
    assert ValueOf(Spell(count) + [Crore]) == Some(count - rest + OrOne(rest) * 10000000);
  }

  // ----- rupees and paise -----

  function DropLeading(run: seq<Word>): seq<Word> {
    if run != [] && (run[0] == Rupee || IsFiller(run[0])) then DropLeading(run[1..]) else run
  }

  function DropTrailing(run: seq<Word>): seq<Word> {
    if run != [] && IsFiller(run[|run| - 1]) then DropTrailing(run[..|run| - 1]) else run
  }

  /** Position of the last `w`, or -1. */
  function LastIndex(run: seq<Word>, w: Word): (i: int)
    ensures -1 <= i < |run|
    ensures i >= 0 ==> run[i] == w
    ensures forall j | i < j < |run| :: run[j] != w
  {
    if run == [] then -1 else if run[|run| - 1] == w then |run| - 1 else LastIndex(run[..|run| - 1], w)
  }

  function WithoutRupees(run: seq<Word>): seq<Word> {
    if run == [] then []
    else WithoutRupees(run[..|run| - 1]) + if run[|run| - 1] == Rupee then [] else [run[|run| - 1]]
  }

  /** Rupees and paise apart: at the last "rupees", else at the last "and", else all of it is paise. */
  function CutAt(run: seq<Word>): int {
    if Rupee in run then LastIndex(run, Rupee) else LastIndex(run, And)
  }

  function RupeesOf(words: seq<Word>): Option<nat> {
    if words == [] then Some(0) else ValueOf(words)
  }

  function AmountOf(run: seq<Word>): Option<nat> {
    var r := DropTrailing(DropLeading(run));
    if r != [] && r[|r| - 1] == Paise then
      var body := r[..|r| - 1];
      var cut := CutAt(body);
      var rupees := RupeesOf(if cut >= 0 then body[..cut] else []);
      var paise := ValueOf(body[cut + 1..]);
      if paise.None? || paise.value > 99 || rupees.None? then None else Some(100 * rupees.value + paise.value)
    else
      var rupees := RupeesOf(WithoutRupees(r));
      if rupees.None? then None else Some(100 * rupees.value)
  }

  /** `_parse_run`. */
  method ParseRun(run0: seq<Word>) returns (amount: Option<nat>)
    ensures amount == AmountOf(run0)
  {
    var run := run0;
    while run != [] && (run[0] == Rupee || IsFiller(run[0]))
      invariant DropLeading(run) == DropLeading(run0)
      decreases |run|
    {
      run := run[1..];
    }
    ghost var stripped := run;
    while run != [] && IsFiller(run[|run| - 1])
      invariant DropTrailing(run) == DropTrailing(stripped)
      decreases |run|
    {
      run := run[..|run| - 1];
    }
    var paise := 0;
    var rupeeWords := [];
    if run != [] && run[|run| - 1] == Paise {
      run := run[..|run| - 1];
      var cut := CutAt(run);
      var paiseWords := run;
      if cut >= 0 {
        rupeeWords, paiseWords := run[..cut], run[cut + 1..];
      }
      var p := Value(paiseWords);
      if p.None? || p.value > 99 {
        return None;
      }
      paise := p.value;
    } else {
      rupeeWords := WithoutRupees(run);
    }
    var rupees := Some(0);
    if rupeeWords != [] {
      rupees := Value(rupeeWords);
    }
    return if rupees.None? then None else Some(100 * rupees.value + paise);
  }

  // ----- printing rupees and paise, and reading them back -----

  predicate IsNumberWord(w: Word) { w.Unit? || w.Tens? || w == Hundred || IsScale(w) }

  lemma PartWords(count: nat, scale: Word)
    requires count < 1000 && IsScale(scale)
    ensures forall w | w in SpellPart(count, scale) :: IsNumberWord(w)
    ensures forall w | w in SpellBelow1000(count) :: IsNumberWord(w)
    ensures SpellBelow1000(count) != [] && (count > 0 ==> SpellPart(count, scale) != [])
  {
  }

  lemma SpelledWords(n: nat)
    requires n < LIMIT
    ensures Spell(n) != [] && forall w | w in Spell(n) :: IsNumberWord(w)
  {
    Places(n);
    PartWords(n / 10000000, Crore);
    PartWords(n / 100000 % 100, Lakh);
    PartWords(n / 1000 % 100, Thousand);
    PartWords(n % 1000, Thousand);
    hide SpellPart, SpellBelow1000, IsNumberWord;
    assert IsNumberWord(Unit(0)) by { NumberWordZero(); }
  }

  lemma NumberWordZero()
    ensures IsNumberWord(Unit(0))
  {
  }

  /** Number words with fillers among them. */
  ghost predicate Says(words: seq<Word>, n: nat) { n < LIMIT && WithoutFillers(words) == Spell(n) }

  lemma {:induction false} FillerOrNumber(words: seq<Word>, w: Word)
    requires w in words
    ensures IsFiller(w) || w in WithoutFillers(words)
  {
    if w in words[..|words| - 1] { FillerOrNumber(words[..|words| - 1], w); }
  }

  lemma SaidWords(words: seq<Word>, n: nat)
    requires Says(words, n)
    ensures forall w | w in words :: IsFiller(w) || IsNumberWord(w)
    ensures exists w | w in words :: IsNumberWord(w)
  {
    SpelledWords(n);
    forall w | w in words ensures IsFiller(w) || IsNumberWord(w) {
      FillerOrNumber(words, w);
    }
    if forall w | w in words :: IsFiller(w) { OnlyFillers(words); }
  }

  lemma {:induction false} OnlyFillers(words: seq<Word>)
    requires forall w | w in words :: IsFiller(w)
    ensures WithoutFillers(words) == []
  {
    if words != [] {
      assert words[|words| - 1] in words;
      OnlyFillers(words[..|words| - 1]);
    }
  }

  lemma {:induction false} WithoutFillersConcat(a: seq<Word>, b: seq<Word>)
    ensures WithoutFillers(a + b) == WithoutFillers(a) + WithoutFillers(b)
  {
    if b == [] {
      assert a + b == a;
    } else {
      assert (a + b)[..|a + b| - 1] == a + b[..|b| - 1];
      WithoutFillersConcat(a, b[..|b| - 1]);
    }
  }

  /** Stripping the front of a run stops inside its first number, whose value it keeps. */
  lemma FillerFirst(words: seq<Word>)
    requires words != [] && IsFiller(words[0])
    ensures WithoutFillers(words[1..]) == WithoutFillers(words)
  {
    assert words == [words[0]] + words[1..];
    WithoutFillersConcat([words[0]], words[1..]);
  }

  lemma {:induction false} DropLeadingKeeps(
    lead: seq<Word>, words: seq<Word>, rest: seq<Word>, n: nat) returns (kept: seq<Word>)
    requires forall w | w in lead :: w == Rupee || IsFiller(w)
    requires Says(words, n)
    ensures DropLeading(lead + words + rest) == kept + rest && Says(kept, n) && kept != []
    decreases |lead| + |words|
  {
    hide Spell, WithoutFillers;
    SaidWords(words, n);
    var run := lead + words + rest;
    if lead != [] {
      assert lead[0] in lead;
      assert run[1..] == lead[1..] + words + rest;
      kept := DropLeadingKeeps(lead[1..], words, rest, n);
    } else if IsFiller(words[0]) {
      assert run[1..] == [] + words[1..] + rest;
      FillerFirst(words);
      kept := DropLeadingKeeps([], words[1..], rest, n);
    } else {
      assert words[0] in words;
      kept := words;
      assert run == words + rest;
    }
  }

  lemma {:induction false} DropTrailingKeeps(body: seq<Word>, tail: seq<Word>)
    requires forall w | w in tail :: IsFiller(w)
    requires body != [] && !IsFiller(body[|body| - 1])
    ensures DropTrailing(body + tail) == body
  {
    var run := body + tail;
    if tail != [] {
      assert tail[|tail| - 1] in tail;
      assert run[..|run| - 1] == body + tail[..|tail| - 1];
      DropTrailingKeeps(body, tail[..|tail| - 1]);
    } else {
      assert run == body;
    }
  }

  lemma CutAmount(run: seq<Word>, kept: seq<Word>, cut: Word, paiseWords: seq<Word>, rupees: nat, paise: nat)
    requires DropTrailing(DropLeading(run)) == kept + [cut] + paiseWords + [Paise]
    requires CutAt(kept + [cut] + paiseWords) == |kept|
    requires kept != [] && ValueOf(kept) == Some(rupees) && ValueOf(paiseWords) == Some(paise) && paise < 100
    ensures AmountOf(run) == Some(100 * rupees + paise)
  {
    hide ValueOf, CutAt, DropTrailing, DropLeading;
    var body := kept + [cut] + paiseWords;
    assert (body + [Paise])[..|body|] == body;
    assert body[..|kept|] == kept && body[|kept| + 1..] == paiseWords;
  }

  /** Stripping leaves the first number, what follows it, and nothing of `lead` and `tail`. */
  lemma Stripped(lead: seq<Word>, words: seq<Word>, n: nat, rest: seq<Word>, tail: seq<Word>) returns (kept: seq<Word>)
    requires forall w | w in lead :: w == Rupee || IsFiller(w)
    requires forall w | w in tail :: IsFiller(w)
    requires Says(words, n) && rest != [] && !IsFiller(rest[|rest| - 1])
    ensures Says(kept, n) && kept != []
    ensures DropTrailing(DropLeading(lead + words + rest + tail)) == kept + rest
  {
    assert lead + words + rest + tail == lead + words + (rest + tail);
    kept := DropLeadingKeeps(lead, words, rest + tail, n);
    assert kept + (rest + tail) == (kept + rest) + tail;
    DropTrailingKeeps(kept + rest, tail);
  }

  /** "(Rupees) <rupees> Rupees (and) <paise> Paise Only", with fillers anywhere. */
  lemma RupeesAndPaiseRoundTrip(
    lead: seq<Word>, rupeeWords: seq<Word>, rupees: nat, paiseWords: seq<Word>, paise: nat, tail: seq<Word>)
    requires forall w | w in lead :: w == Rupee || IsFiller(w)
    requires forall w | w in tail :: IsFiller(w)
    requires Says(rupeeWords, rupees) && Says(paiseWords, paise) && paise < 100
    ensures AmountOf(lead + rupeeWords + ([Rupee] + paiseWords + [Paise]) + tail) == Some(100 * rupees + paise)
  {
    hide WithoutFillers, DropTrailing, DropLeading, Spell, AmountOf, ValueOf, IsNumberWord;
    var rest := [Rupee] + paiseWords + [Paise];
    assert rest[|rest| - 1] == Paise;
    var kept := Stripped(lead, rupeeWords, rupees, rest, tail);
    SpellingRoundTrip(rupees, kept);
    SpellingRoundTrip(paise, paiseWords);
    SaidWords(paiseWords, paise);
    LastRupee(kept, paiseWords);
    assert kept + rest == kept + [Rupee] + paiseWords + [Paise];
    CutAmount(lead + rupeeWords + rest + tail, kept, Rupee, paiseWords, rupees, paise);
  }

  lemma LastRupee(kept: seq<Word>, paiseWords: seq<Word>)
    requires forall w | w in paiseWords :: IsFiller(w) || IsNumberWord(w)
    ensures CutAt(kept + [Rupee] + paiseWords) == |kept|
  {
    var body := kept + [Rupee] + paiseWords;
    assert body[|kept|] == Rupee && Rupee in body;
    forall j | |kept| < j < |body| ensures body[j] != Rupee {
      assert body[j] in paiseWords;
    }
    hide IsNumberWord;
  }

  /** "Rupees <rupees> and <paise> Paise Only": without a second "rupees", the last "and" is the cut. */
  lemma AndPaiseRoundTrip(lead: seq<Word>, rupeeWords: seq<Word>, rupees: nat, paise: nat, tail: seq<Word>)
    requires forall w | w in lead :: w == Rupee || IsFiller(w)
    requires forall w | w in tail :: IsFiller(w)
    requires Says(rupeeWords, rupees) && paise < 100
    ensures AmountOf(lead + rupeeWords + ([And] + Spell(paise) + [Paise]) + tail) == Some(100 * rupees + paise)
  {
    hide WithoutFillers, DropTrailing, DropLeading, Spell, AmountOf, ValueOf, IsNumberWord;
    var rest := [And] + Spell(paise) + [Paise];
    assert rest[|rest| - 1] == Paise;
    var kept := Stripped(lead, rupeeWords, rupees, rest, tail);
    SpellingRoundTrip(rupees, kept);
    SpelledWords(paise);
    SaidWords(kept, rupees);
    SpelledValue(paise);
    LastAnd(kept, Spell(paise));
    assert kept + rest == kept + [And] + Spell(paise) + [Paise];
    CutAmount(lead + rupeeWords + rest + tail, kept, And, Spell(paise), rupees, paise);
  }

  lemma SpelledValue(n: nat)
    requires n < LIMIT
    ensures ValueOf(Spell(n)) == Some(n)
  {
    hide Spell, ReadAll;
    ReadSpelled(n);
  }

  lemma LastAnd(kept: seq<Word>, paiseWords: seq<Word>)
    requires forall w | w in kept :: IsFiller(w) || IsNumberWord(w)
    requires forall w | w in paiseWords :: IsNumberWord(w)
    ensures CutAt(kept + [And] + paiseWords) == |kept|
  {
    var body := kept + [And] + paiseWords;
    forall w | w in body ensures w != Rupee {
      assert w in kept || w == And || w in paiseWords;
    }
    assert body[|kept|] == And;
    forall j | |kept| < j < |body| ensures body[j] != And {
      assert body[j] in paiseWords;
    }
  }

  /** "<rupees> Rupees Only". */
  lemma WholeRupeesRoundTrip(lead: seq<Word>, rupeeWords: seq<Word>, rupees: nat, tail: seq<Word>)
    requires forall w | w in lead :: w == Rupee || IsFiller(w)
    requires forall w | w in tail :: IsFiller(w)
    requires Says(rupeeWords, rupees)
    ensures AmountOf(lead + rupeeWords + [Rupee] + tail) == Some(100 * rupees)
  {
    hide WithoutFillers, DropTrailing, DropLeading, Spell, ValueOf, IsNumberWord;
    var kept := Stripped(lead, rupeeWords, rupees, [Rupee], tail);
    SaidWords(kept, rupees);
    SpellingRoundTrip(rupees, kept);
    RupeesDropped(kept);
  }

  lemma RupeesDropped(words: seq<Word>)
    requires forall w | w in words :: IsFiller(w) || IsNumberWord(w)
    ensures WithoutRupees(words + [Rupee]) == words
  {
    assert forall i | 0 <= i < |words| :: words[i] in words;
    NoRupees(words);
    assert (words + [Rupee])[..|words|] == words;
  }

  lemma {:induction false} NoRupees(words: seq<Word>)
    requires forall i | 0 <= i < |words| :: words[i] != Rupee
    ensures WithoutRupees(words) == words
  {
    if words != [] {
      NoRupees(words[..|words| - 1]);
    }
  }

  // ----- finding the amount in a text -----

  function Close(run: seq<Word>): seq<seq<Word>> { if run == [] then [] else [run] }

  /** The finished runs and the one still open. */
  datatype Grouping = Grouping(runs: seq<seq<Word>>, current: seq<Word>)

  function Group(g: Grouping, t: Word): Grouping {
    if t == OtherWord then Grouping(g.runs + Close(g.current), [])
    else if t == Only then Grouping(g.runs + [g.current + [t]], [])
    else Grouping(g.runs, g.current + [t])
  }

  function Grouped(tokens: seq<Word>): Grouping {
    if tokens == [] then Grouping([], [])
    else Group(Grouped(tokens[..|tokens| - 1]), tokens[|tokens| - 1])
  }

  function RunsOf(tokens: seq<Word>): seq<seq<Word>> { Grouped(tokens).runs + Close(Grouped(tokens).current) }

  /** `_runs`, on words. */
  method FindRuns(tokens: seq<Word>) returns (runs: seq<seq<Word>>)
    ensures runs == RunsOf(tokens)
  {
    var current: seq<Word> := [];
    runs := [];
    for i := 0 to |tokens|
      invariant Grouping(runs, current) == Grouped(tokens[..i])
    {
      assert tokens[..i + 1][..i] == tokens[..i];
      if tokens[i] != OtherWord {
        current := current + [tokens[i]];
        if tokens[i] == Only {
          runs := runs + [current];
          current := [];
        }
      } else if current != [] {
        runs := runs + [current];
        current := [];
      }
    }
    assert tokens[..|tokens|] == tokens;
    if current != [] {
      runs := runs + [current];
    }
  }

  lemma GroupAfter(before: seq<seq<Word>>, g: Grouping, t: Word)
    ensures Group(Grouping(before + g.runs, g.current), t) == Grouping(before + Group(g, t).runs, Group(g, t).current)
  {
    assert (before + g.runs) + Close(g.current) == before + (g.runs + Close(g.current));
    assert (before + g.runs) + [g.current + [t]] == before + (g.runs + [g.current + [t]]);
  }

  /** A word outside the vocabulary, or "only", separates what stands before it from what follows. */
  lemma {:induction false} RunsSplit(a: seq<Word>, b: seq<Word>)
    requires Grouped(a).current == []
    ensures Grouped(a + b) == Grouping(Grouped(a).runs + Grouped(b).runs, Grouped(b).current)
  {
    hide Group;
    if b == [] {
      assert a + b == a;
    } else {
      assert (a + b)[..|a + b| - 1] == a + b[..|b| - 1];
      RunsSplit(a, b[..|b| - 1]);
      GroupAfter(Grouped(a).runs, Grouped(b[..|b| - 1]), b[|b| - 1]);
    }
  }

  /** Vocabulary without "only" in the middle is one run. */
  lemma {:induction false} OneRun(words: seq<Word>)
    requires forall i | 0 <= i < |words| :: words[i] != OtherWord && words[i] != Only
    ensures Grouped(words) == Grouping([], words)
  {
    if words != [] {
      OneRun(words[..|words| - 1]);
      assert words == words[..|words| - 1] + [words[|words| - 1]];
    }
  }

  function NumberWords(run: seq<Word>): nat {
    if run == [] then 0 else NumberWords(run[..|run| - 1]) + if IsNumberWord(run[|run| - 1]) then 1 else 0
  }

  predicate NamesAmount(run: seq<Word>) {
    (Rupee in run || Paise in run) && NumberWords(run) >= 2 && AmountOf(run).Some?
  }

  /** `runs[j]` is the first of the longest among the first `n` runs that name an amount. */
  ghost predicate IsBest(runs: seq<seq<Word>>, n: nat, j: nat)
    requires n <= |runs|
  {
    && j < n && NamesAmount(runs[j])
    && (forall i | 0 <= i < n && NamesAmount(runs[i]) :: NumberWords(runs[i]) <= NumberWords(runs[j]))
    && (forall i | 0 <= i < j && NamesAmount(runs[i]) :: NumberWords(runs[i]) < NumberWords(runs[j]))
  }

  /** `amount_in_words`. */
  method AmountInWords(tokens: seq<Word>) returns (amount: Option<nat>)
    ensures var runs := RunsOf(tokens);
      if amount.None? then forall k | 0 <= k < |runs| :: !NamesAmount(runs[k])
      else exists j: nat :: IsBest(runs, |runs|, j) && AmountOf(runs[j]) == amount
  {
    var runs := FindRuns(tokens);
    var at;
    amount, at := LongestAmount(runs);
  }

  method LongestAmount(runs: seq<seq<Word>>) returns (amount: Option<nat>, at: nat)
    ensures if amount.None? then forall k | 0 <= k < |runs| :: !NamesAmount(runs[k])
            else IsBest(runs, |runs|, at) && AmountOf(runs[at]) == amount
  {
    hide AmountOf, NumberWords;
    var best := 0;
    amount, at := None, 0;
    for i := 0 to |runs|
      invariant if amount.None? then forall k | 0 <= k < i :: !NamesAmount(runs[k])
                else IsBest(runs, i, at) && AmountOf(runs[at]) == amount && best == NumberWords(runs[at])
    {
      var run := runs[i];
      if (Rupee in run || Paise in run) && NumberWords(run) >= 2 {
        var a := ParseRun(run);
        if a.Some? && (amount.None? || NumberWords(run) > best) {
          amount, best, at := a, NumberWords(run), i;
        }
      }
    }
  }

  lemma {:induction false} NumberWordsConcat(a: seq<Word>, b: seq<Word>)
    ensures NumberWords(a + b) == NumberWords(a) + NumberWords(b)
  {
    if b == [] {
      assert a + b == a;
    } else {
      assert (a + b)[..|a + b| - 1] == a + b[..|b| - 1];
      NumberWordsConcat(a, b[..|b| - 1]);
    }
  }

  lemma {:induction false} AllNumberWords(words: seq<Word>)
    requires forall w | w in words :: IsNumberWord(w)
    ensures NumberWords(words) == |words|
  {
    if words != [] {
      assert words[|words| - 1] in words;
      assert forall w | w in words[..|words| - 1] :: w in words;
      AllNumberWords(words[..|words| - 1]);
    }
  }

  /** Words outside the vocabulary. */
  function Noise(n: nat): (words: seq<Word>)
    ensures |words| == n && forall i | 0 <= i < n :: words[i] == OtherWord
  {
    seq(n, _ => OtherWord)
  }

  /** An advice that prints "<rupees> Rupees <paise> Paise Only" among words outside the vocabulary: its
      one run is that phrase, and the phrase names exactly the printed amount. */
  lemma PrintedAmountIsFound(before: nat, after: nat, rupees: nat, paise: nat)
    requires rupees < LIMIT && paise < 100
    ensures var phrase := Spell(rupees) + [Rupee] + Spell(paise) + [Paise] + [Only];
      && RunsOf(Noise(before) + phrase + Noise(after)) == [phrase]
      && NamesAmount(phrase) && AmountOf(phrase) == Some(100 * rupees + paise)
  {
    var words := Spell(rupees) + [Rupee] + Spell(paise) + [Paise];
    SpelledWords(rupees);
    SpelledWords(paise);
    VocabularyOnly(Spell(rupees), Spell(paise));
    OneRun(words);
    PhraseIsOneRun(before, after, words);
    PhraseNumberWords(rupees, paise);
    PhraseAmount(rupees, paise);
  }

  lemma VocabularyOnly(a: seq<Word>, b: seq<Word>)
    requires forall w | w in a || w in b :: IsNumberWord(w)
    ensures var words := a + [Rupee] + b + [Paise];
      forall i | 0 <= i < |words| :: words[i] != OtherWord && words[i] != Only
  {
    assert forall i | 0 <= i < |a| :: a[i] in a;
    assert forall i | 0 <= i < |b| :: b[i] in b;
  }

  lemma PhraseIsOneRun(before: nat, after: nat, words: seq<Word>)
    requires Grouped(words) == Grouping([], words)
    ensures RunsOf(Noise(before) + (words + [Only]) + Noise(after)) == [words + [Only]]
  {
    var phrase := words + [Only];
    assert phrase[..|words|] == words;
    OthersMakeNoRun(before);
    OthersMakeNoRun(after);
    RunsSplit(Noise(before), phrase);
    RunsSplit(Noise(before) + phrase, Noise(after));
  }

  lemma PhraseAmount(rupees: nat, paise: nat)
    requires rupees < LIMIT && paise < 100
    ensures AmountOf(Spell(rupees) + [Rupee] + Spell(paise) + [Paise] + [Only]) == Some(100 * rupees + paise)
  {
    hide AmountOf, Spell, WithoutFillers;
    SaysItself(rupees);
    SaysItself(paise);
    RupeesAndPaiseRoundTrip([], Spell(rupees), rupees, Spell(paise), paise, [Only]);
    Regroup(Spell(rupees), Spell(paise));
  }

  lemma SaysItself(n: nat)
    requires n < LIMIT
    ensures Says(Spell(n), n)
  {
    hide Spell;
    SpelledWords(n);
    assert forall i | 0 <= i < |Spell(n)| :: Spell(n)[i] in Spell(n);
    NoFillers(Spell(n));
  }

  lemma Regroup(a: seq<Word>, b: seq<Word>)
    ensures [] + a + ([Rupee] + b + [Paise]) + [Only] == a + [Rupee] + b + [Paise] + [Only]
  {
    assert [] + a == a;
    assert a + ([Rupee] + b + [Paise]) == a + [Rupee] + b + [Paise];
  }

  lemma PhraseNumberWords(rupees: nat, paise: nat)
    requires rupees < LIMIT && paise < 100
    ensures NumberWords(Spell(rupees) + [Rupee] + Spell(paise) + [Paise] + [Only]) >= 2
    ensures Rupee in Spell(rupees) + [Rupee] + Spell(paise) + [Paise] + [Only]
  {
    hide Spell;
    var a, b := Spell(rupees), Spell(paise);
    SpelledWords(rupees);
    SpelledWords(paise);
    AllNumberWords(a);
    AllNumberWords(b);
    NumberWordsConcat(a, [Rupee]);
    NumberWordsConcat(a + [Rupee], b);
    NumberWordsConcat(a + [Rupee] + b, [Paise]);
    NumberWordsConcat(a + [Rupee] + b + [Paise], [Only]);
    assert (a + [Rupee] + b + [Paise] + [Only])[|a|] == Rupee;
  }

  lemma {:induction false} OthersMakeNoRun(n: nat)
    ensures Grouped(Noise(n)) == Grouping([], [])
  {
    if n > 0 {
      assert Noise(n)[..n - 1] == Noise(n - 1);
      OthersMakeNoRun(n - 1);
    }
  }

  lemma {:induction false} NoFillers(words: seq<Word>)
    requires forall i | 0 <= i < |words| :: !IsFiller(words[i])
    ensures WithoutFillers(words) == words
  {
    if words != [] { NoFillers(words[..|words| - 1]); }
  }
}
