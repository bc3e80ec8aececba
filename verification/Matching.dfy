/** Invoice-number and payer matching (ar_pipeline/ledger/matching.py).

    Texts are ASCII: letters are upper- and lower-cased one character at a time. */
module Matching {

  // ----- character classes -----

  predicate IsDigit(c: char) { '0' <= c <= '9' }

  predicate IsSpace(c: char) {
    c == ' ' || '\t' <= c <= '\r' || '\U{1c}' <= c <= '\U{1f}'
  }

  predicate IsSeparator(c: char) {
    IsSpace(c) || c == '-' || c == '/' || c == '.' || c == '_'
  }

  predicate IsWord(c: char) {
    IsDigit(c) || 'a' <= c <= 'z' || 'A' <= c <= 'Z' || c == '_'
  }

  function UpperChar(c: char): char {
    if 'a' <= c <= 'z' then (c as int - 32) as char else c
  }

  function LowerChar(c: char): char {
    if 'A' <= c <= 'Z' then (c as int + 32) as char else c
  }

  function Upper(s: string): string {
    seq(|s|, i requires 0 <= i < |s| => UpperChar(s[i]))
  }

  function Lower(s: string): string {
    seq(|s|, i requires 0 <= i < |s| => LowerChar(s[i]))
  }

  /** The characters of `s` for which `keep` holds, in order. */
  function Keep(s: string, keep: char -> bool): string {
    if s == "" then "" else (if keep(s[0]) then [s[0]] else "") + Keep(s[1..], keep)
  }

  lemma KeepFirst(s: string, keep: char -> bool)
    requires s != ""
    ensures Keep(s, keep) == (if keep(s[0]) then [s[0]] else "") + Keep(s[1..], keep)
  {
  }

  lemma KeepNone(keep: char -> bool)
    ensures Keep("", keep) == ""
  {
  }

  lemma {:induction false} KeepConcat(a: string, b: string, keep: char -> bool)
    ensures Keep(a + b, keep) == Keep(a, keep) + Keep(b, keep)
  {
    hide Keep;
    if a == "" {
      KeepNone(keep);
      assert a + b == b && "" + Keep(b, keep) == Keep(b, keep);
    } else {
      var first := if keep(a[0]) then [a[0]] else "";
      var ka, kb := Keep(a[1..], keep), Keep(b, keep);
      KeepConcat(a[1..], b, keep);
      KeepFirst(a, keep);
      KeepFirst(a + b, keep);
      assert (a + b)[0] == a[0] && (a + b)[1..] == a[1..] + b;
      assert first + (ka + kb) == (first + ka) + kb;
    }
  }

  function TrimLeft(s: string): string {
    if s != "" && IsSpace(s[0]) then TrimLeft(s[1..]) else s
  }

  function TrimRight(s: string): string {
    if s != "" && IsSpace(s[|s| - 1]) then TrimRight(s[..|s| - 1]) else s
  }

  function Trim(s: string): string { TrimRight(TrimLeft(s)) }

  // ----- the automatic match -----

  /** Separators removed, upper case: the ledger's identity of an invoice. */
  function NumberKey(raw: string): string {
    Upper(Keep(raw, c => !IsSeparator(c)))
  }

  lemma {:induction false} TrimLeftKey(s: string)
    ensures NumberKey(TrimLeft(s)) == NumberKey(s)
  {
    if s != "" && IsSpace(s[0]) {
      KeepFirst(s, c => !IsSeparator(c));
      TrimLeftKey(s[1..]);
    }
  }

  lemma {:induction false} TrimRightKey(s: string)
    ensures NumberKey(TrimRight(s)) == NumberKey(s)
  {
    if s != "" && IsSpace(s[|s| - 1]) {
      var front := s[..|s| - 1];
      TrimRightKey(front);
      assert s == front + [s[|s| - 1]];
      KeepConcat(front, [s[|s| - 1]], c => !IsSeparator(c));
      assert Keep([s[|s| - 1]], c => !IsSeparator(c)) == "" by { KeepFirst([s[|s| - 1]], c => !IsSeparator(c)); }
    }
  }

  /** White space around a number does not change its key. */
  lemma TrimKey(s: string)
    ensures NumberKey(Trim(s)) == NumberKey(s)
  {
    TrimLeftKey(s);
    TrimRightKey(TrimLeft(s));
  }

  // ----- suggestions -----

  /** Length of the run of digits at the front of `s`. */
  function DigitRun(s: string): (n: nat)
    ensures n <= |s|
  {
    if s != "" && IsDigit(s[0]) then 1 + DigitRun(s[1..]) else 0
  }

  function StripZeros(run: string): string {
    if |run| > 1 && run[0] == '0' then StripZeros(run[1..]) else run
  }

  /** Separators removed and every digit group stripped of leading zeros; a separator ends a group. */
  function ZeroInsensitive(s: string): string
    decreases |s|
  {
    if s == "" then ""
    else if IsDigit(s[0]) then
      var n := DigitRun(s);
      StripZeros(s[..n]) + ZeroInsensitive(s[n..])
    else (if IsSeparator(s[0]) then "" else [UpperChar(s[0])]) + ZeroInsensitive(s[1..])
  }

  function Min(a: nat, b: nat): nat { if a <= b then a else b }

  /** The textbook edit distance: least number of insertions, deletions and substitutions. */
  function EditDistance<T(==)>(a: seq<T>, b: seq<T>): nat
    decreases |a| + |b|
  {
    if a == [] then |b|
    else if b == [] then |a|
    else
      Min(EditDistance(a[1..], b[1..]) + (if a[0] == b[0] then 0 else 1),
          Min(EditDistance(a[1..], b) + 1, EditDistance(a, b[1..]) + 1))
  }

  /** `b` is `a` with the element at `i` replaced by a different one. */
  ghost predicate Replaces<T>(a: seq<T>, b: seq<T>, i: nat) {
    i < |a| == |b| && a[i] != b[i] && a[..i] == b[..i] && a[i + 1..] == b[i + 1..]
  }

  /** `b` is `a` with the element at `i` removed. */
  predicate Removes<T(==)>(a: seq<T>, b: seq<T>, i: nat) {
    i < |a| && a[..i] + a[i + 1..] == b
  }

  lemma {:induction false} DistanceZero<T>(a: seq<T>, b: seq<T>)
    ensures EditDistance(a, b) == 0 <==> a == b
    decreases |a| + |b|
  {
    if a != [] && b != [] {
      DistanceZero(a[1..], b[1..]);
      assert a == [a[0]] + a[1..] && b == [b[0]] + b[1..];
    }
  }

  lemma {:induction false} EditWithinOne<T>(a: seq<T>, b: seq<T>, i: nat)
    requires Replaces(a, b, i) || Removes(a, b, i) || Removes(b, a, i)
    ensures EditDistance(a, b) == 1
    decreases i
  {
    DistanceZero(a, b);
    if i == 0 {
      if a != [] && b != [] {
        DistanceZero(a[1..], b[1..]);
        DistanceZero(a[1..], b);
        DistanceZero(a, b[1..]);
        assert Replaces(a, b, 0) ==> a[1..] == b[1..];
        assert Removes(a, b, 0) ==> a[1..] == b;
        assert Removes(b, a, 0) ==> b[1..] == a;
      }
    } else {
      assert a[0] == b[0] by {
        if Replaces(a, b, i) { assert a[..i][0] == b[..i][0]; }
      }
      var s, t := a[1..], b[1..];
      if Replaces(a, b, i) {
        assert s[..i - 1] == a[..i][1..] && t[..i - 1] == b[..i][1..];
        assert s[i..] == a[i + 1..] && t[i..] == b[i + 1..];
      } else if Removes(a, b, i) {
        assert s[..i - 1] + s[i..] == (a[..i] + a[i + 1..])[1..] == t;
      } else {
        assert t[..i - 1] + t[i..] == (b[..i] + b[i + 1..])[1..] == s;
      }
      EditWithinOne(s, t, i - 1);
      DistanceZero(a, b);
    }
  }

  /** The same edit one position later, behind a common first element. */
  lemma EditLater<T>(a: seq<T>, b: seq<T>, j: nat)
    requires a != [] && b != [] && a[0] == b[0]
    requires Replaces(a[1..], b[1..], j) || Removes(a[1..], b[1..], j) || Removes(b[1..], a[1..], j)
    ensures Replaces(a, b, j + 1) || Removes(a, b, j + 1) || Removes(b, a, j + 1)
  {
    var s, t := a[1..], b[1..];
    if Replaces(s, t, j) {
      assert a[..j + 1] == [a[0]] + s[..j] && b[..j + 1] == [b[0]] + t[..j];
      assert a[j + 2..] == s[j + 1..] && b[j + 2..] == t[j + 1..];
    } else if Removes(s, t, j) {
      assert a[..j + 1] + a[j + 2..] == [a[0]] + (s[..j] + s[j + 1..]) == b;
    } else {
      assert b[..j + 1] + b[j + 2..] == [b[0]] + (t[..j] + t[j + 1..]) == a;
    }
  }

  /** The single edit behind a distance of one. */
  lemma {:induction false} DistanceOneEdit<T>(a: seq<T>, b: seq<T>) returns (i: nat)
    requires EditDistance(a, b) == 1
    ensures Replaces(a, b, i) || Removes(a, b, i) || Removes(b, a, i)
    decreases |a| + |b|
  {
    if a == [] || b == [] {
      i := 0;
    } else if a[0] == b[0] && EditDistance(a[1..], b[1..]) == 1 {
      var j := DistanceOneEdit(a[1..], b[1..]);
      EditLater(a, b, j);
      i := j + 1;
    } else {
      i := 0;
      DistanceZero(a[1..], b[1..]);
      DistanceZero(a[1..], b);
      DistanceZero(a, b[1..]);
    }
  }

  lemma {:induction false} DistanceSymmetric<T>(a: seq<T>, b: seq<T>)
    ensures EditDistance(a, b) == EditDistance(b, a)
    decreases |a| + |b|
  {
    if a != [] && b != [] {
      DistanceSymmetric(a[1..], b[1..]);
      DistanceSymmetric(a[1..], b);
      DistanceSymmetric(a, b[1..]);
    }
  }

  function Mismatches(a: string, b: string): nat
    requires |a| == |b|
  {
    if a == "" then 0 else (if a[0] != b[0] then 1 else 0) + Mismatches(a[1..], b[1..])
  }

  lemma {:induction false} NoMismatch(a: string, b: string)
    requires |a| == |b|
    ensures Mismatches(a, b) == 0 <==> a == b
  {
    if a != "" {
      NoMismatch(a[1..], b[1..]);
      assert a == [a[0]] + a[1..] && b == [b[0]] + b[1..];
    }
  }

  lemma {:induction false} OneMismatch(a: string, b: string)
    requires |a| == |b|
    ensures Mismatches(a, b) == 1 <==> exists i: nat :: Replaces(a, b, i)
  {
    if a != "" {
      var s, t := a[1..], b[1..];
      NoMismatch(s, t);
      OneMismatch(s, t);
      if a[0] != b[0] {
        if s == t { assert Replaces(a, b, 0); }
        forall i: nat | Replaces(a, b, i) ensures s == t {
          assert i > 0 ==> a[..i][0] == b[..i][0];
        }
      } else {
        forall i: nat | Replaces(s, t, i) ensures Replaces(a, b, i + 1) {
          assert a[..i + 1] == [a[0]] + s[..i] && b[..i + 1] == [b[0]] + t[..i];
          assert a[i + 2..] == s[i + 1..] && b[i + 2..] == t[i + 1..];
        }
        forall i: nat | Replaces(a, b, i) ensures i > 0 && Replaces(s, t, i - 1) {
          assert s[..i - 1] == a[..i][1..] && t[..i - 1] == b[..i][1..];
          assert s[i..] == a[i + 1..] && t[i..] == b[i + 1..];
        }
      }
    }
  }

  /** The prefix scan of `_one_edit_apart` decides exactly "edit distance one". */
  method OneEditApart(a0: string, b0: string) returns (r: bool)
    ensures r <==> EditDistance(a0, b0) == 1
  {
    var a, b := a0, b0;
    DistanceZero(a, b);
    if a == b || |a| > |b| + 1 || |b| > |a| + 1 {
      if EditDistance(a, b) == 1 { var _ := DistanceOneEdit(a, b); }
      return false;
    }
    if |a| == |b| {
      OneMismatch(a, b);
      if EditDistance(a, b) == 1 {
        var i := DistanceOneEdit(a, b);
      } else if exists i: nat :: Replaces(a, b, i) {
        var i: nat :| Replaces(a, b, i);
        EditWithinOne(a, b, i);
      }
      return Mismatches(a, b) == 1;
    }
    if |a| > |b| {
      DistanceSymmetric(a, b);
      a, b := b, a;
    }
    var i := 0;
    while i < |a| && a[i] == b[i]
      invariant 0 <= i <= |a|
      invariant a[..i] == b[..i]
    {
      i := i + 1;
    }
    r := a[i..] == b[i + 1..];
    if r {
      assert b[..i] + b[i + 1..] == a[..i] + a[i..] == a;
      EditWithinOne(a, b, i);
    } else if EditDistance(a, b) == 1 {
      var j := DistanceOneEdit(a, b);
      RemovalAtFirstDifference(b, a, j, i);
    }
  }

  /** Wherever one element was removed, removing at the first difference gives the same text. */
  lemma RemovalAtFirstDifference<T>(long: seq<T>, short: seq<T>, j: nat, i: nat)
    requires Removes(long, short, j)
    requires i <= |short| && short[..i] == long[..i]
    requires i < |short| ==> short[i] != long[i]
    ensures short[i..] == long[i + 1..]
  {
    forall k | i <= k < |short| ensures short[k] == long[k + 1] {
      if i < j { assert false; }
    }
  }

  /** The independently written test of ledger/adjustments.py: some position of the longer text
      can be dropped to give the shorter one. */
  predicate OneDigitApart(a: string, b: string) {
    if |a| == |b| + 1 then DropsTo(a, b) else |b| == |a| + 1 && DropsTo(b, a)
  }

  predicate DropsTo(long: string, short: string) {
    exists i | 0 <= i < |long| :: Removes(long, short, i)
  }

  /** The two tests agree wherever both apply: lengths that differ by one. */
  lemma OneDigitApartIsOneEdit(a: string, b: string)
    ensures OneDigitApart(a, b) <==> EditDistance(a, b) == 1 && |a| != |b|
    ensures OneDigitApart(a, b) == OneDigitApart(b, a)
  {
    DistanceSymmetric(a, b);
    if |a| <= |b| {
      DroppedCharacter(a, b);
    } else {
      DroppedCharacter(b, a);
    }
  }

  lemma DroppedCharacter(short: string, long: string)
    requires |short| <= |long|
    ensures EditDistance(short, long) == 1 && |short| != |long|
       <==> |long| == |short| + 1 && DropsTo(long, short)
  {
    if |long| == |short| + 1 && DropsTo(long, short) {
      var i :| 0 <= i < |long| && Removes(long, short, i);
      EditWithinOne(short, long, i);
    }
    if EditDistance(short, long) == 1 && |short| != |long| {
      var i := DistanceOneEdit(short, long);
    }
  }

  predicate EndsWith(s: string, tail: string) {
    |tail| <= |s| && s[|s| - |tail|..] == tail
  }

  predicate IsNearMatch(line: string, invoice: string) {
    var a, b := NumberKey(line), NumberKey(invoice);
    if a == "" || a == b then false
    else if ZeroInsensitive(line) == ZeroInsensitive(invoice) then true
    else if |a| >= 4 && EndsWith(b, a) then true
    else |a| >= 6 && |b| >= 6 && EditDistance(a, b) == 1
  }

  // ----- payers -----

  const STOPWORDS: set<string> := {"pvt", "private", "ltd", "limited", "llp", "inc", "co", "the"}

  /** The words of `s`: its maximal pieces without white space. */
  function Words(s: string): seq<string> { WordsFrom(s, "") }

  function WordsFrom(s: string, word: string): seq<string>
    decreases |s|
  {
    if s == "" then (if word == "" then [] else [word])
    else if IsSpace(s[0]) then (if word == "" then [] else [word]) + WordsFrom(s[1..], "")
    else WordsFrom(s[1..], word + [s[0]])
  }

  function JoinWords(words: seq<string>): string {
    if words == [] then ""
    else if words[0] in STOPWORDS then JoinWords(words[1..])
    else var rest := JoinWords(words[1..]);
      if rest == "" then words[0] else words[0] + " " + rest
  }

  /** The lower-case words of a company name without punctuation and company-form words. */
  function PayerWords(name: string): string {
    var lower := Lower(name);
    JoinWords(Words(seq(|lower|, i requires 0 <= i < |lower| =>
      if IsWord(lower[i]) || IsSpace(lower[i]) then lower[i] else ' ')))
  }

  predicate StartsAt(s: string, part: string, i: nat) {
    i + |part| <= |s| && s[i..i + |part|] == part
  }

  /** `part` occurs somewhere in `s`. */
  predicate Contains(s: string, part: string) {
    exists i | 0 <= i <= |s| :: StartsAt(s, part, i)
  }

  /** True only when both names are present and clearly different companies. */
  predicate PayersDiffer(a: string, b: string) {
    var wa, wb := PayerWords(a), PayerWords(b);
    wa != "" && wb != "" && !(wa == wb || Contains(wb, wa) || Contains(wa, wb))
  }
}
