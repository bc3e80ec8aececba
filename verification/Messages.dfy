/** From the linear text to the messages of a thread (ar_pipeline/threads/splitter.py, second half). */
module Messages {
  import opened Models
  import opened Matching
  import opened Splitter

  /** A match of one of the quoted-header patterns. */
  datatype Boundary = Boundary(start: nat, end: nat, sender: string, sent: string)

  ghost predicate MatchesIn(found: seq<Boundary>, length: nat) {
    forall b | b in found :: b.start < b.end <= length
  }

  // ----- choosing boundaries -----

  /** Earlier start first, and of those that start together the longer first. */
  predicate NotAfter(a: Boundary, b: Boundary) {
    a.start < b.start || (a.start == b.start && a.end >= b.end)
  }

  function Insert(b: Boundary, sorted: seq<Boundary>): seq<Boundary> {
    if sorted == [] then [b]
    else if NotAfter(sorted[|sorted| - 1], b) then sorted + [b]
    else Insert(b, sorted[..|sorted| - 1]) + [sorted[|sorted| - 1]]
  }

  /** A stable sort. */
  function Sort(found: seq<Boundary>): seq<Boundary> {
    if found == [] then [] else Insert(found[|found| - 1], Sort(found[..|found| - 1]))
  }

  ghost predicate IsSorted(s: seq<Boundary>) {
    forall i, j | 0 <= i < j < |s| :: NotAfter(s[i], s[j])
  }

  lemma {:induction false} InsertSorts(b: Boundary, sorted: seq<Boundary>)
    requires IsSorted(sorted)
    ensures IsSorted(Insert(b, sorted)) && multiset(Insert(b, sorted)) == multiset(sorted) + multiset{b}
  {
    if sorted != [] {
      var front, last := sorted[..|sorted| - 1], sorted[|sorted| - 1];
      assert sorted == front + [last];
      if !NotAfter(last, b) {
        InsertSorts(b, front);
        forall x | x in Insert(b, front) ensures NotAfter(x, last) {
          assert x in multiset(Insert(b, front));
          if x != b { assert x in front; }
        }
      }
    }
  }

  lemma {:induction false} SortSorts(found: seq<Boundary>)
    ensures IsSorted(Sort(found)) && multiset(Sort(found)) == multiset(found)
  {
    hide Insert;
    if found != [] {
      SortSorts(found[..|found| - 1]);
      InsertSorts(found[|found| - 1], Sort(found[..|found| - 1]));
      assert found == found[..|found| - 1] + [found[|found| - 1]];
    }
  }

  predicate Covers(k: Boundary, position: nat) { k.start <= position < k.end }

  /** Kept boundaries follow one another without overlapping. */
  ghost predicate InOrder(kept: seq<Boundary>) {
    forall i, j | 0 <= i < j < |kept| :: kept[i].end <= kept[j].start
  }

  /** Every match is kept or starts inside a kept one, which reaches at least as far when they start together. */
  ghost predicate Accounted(b: Boundary, kept: seq<Boundary>) {
    b in kept || exists k | k in kept :: Covers(k, b.start) && (k.start == b.start ==> k.end >= b.end)
  }

  /** The sweep over the sorted matches, `i` of them done. */
  ghost predicate Swept(sorted: seq<Boundary>, i: nat, kept: seq<Boundary>) {
    && i <= |sorted| && InOrder(kept) && (forall k | k in kept :: k in sorted)
    && (forall j | 0 <= j < i :: Accounted(sorted[j], kept))
    && (kept != [] ==> forall j | i <= j < |sorted| :: NotAfter(kept[|kept| - 1], sorted[j]))
  }

  /** `_boundaries`, once the patterns are matched: the greedy sweep keeps sorted, disjoint matches and
      drops only matches that start inside a kept one. */
  method KeepBoundaries(found: seq<Boundary>, length: nat) returns (kept: seq<Boundary>)
    requires MatchesIn(found, length)
    ensures forall k | k in kept :: k in found
    ensures InOrder(kept)
    ensures forall b | b in found :: Accounted(b, kept)
  {
    hide Accounted, NotAfter, InOrder, Sort;
    var sorted := Sort(found);
    SortSorts(found);
    kept := [];
    assert Swept(sorted, 0, []) by { EmptySweep(sorted); }
    for i := 0 to |sorted|
      invariant Swept(sorted, i, kept)
    {
      hide Swept;
      SortedIsFound(found, sorted);
      if kept != [] && sorted[i].start < kept[|kept| - 1].end {
        SweepDrops(sorted, i, kept);
        continue;
      }
      SweepKeeps(sorted, i, kept, length);
      kept := kept + [sorted[i]];
    }
    SortedIsFound(found, sorted);
  }

  lemma EmptySweep(sorted: seq<Boundary>)
    ensures Swept(sorted, 0, [])
  {
  }

  lemma SortedIsFound(found: seq<Boundary>, sorted: seq<Boundary>)
    requires multiset(sorted) == multiset(found)
    ensures forall b :: b in sorted <==> b in found
  {
    assert forall b :: b in sorted <==> b in multiset(sorted);
    assert forall b :: b in found <==> b in multiset(found);
  }

  lemma SweepDrops(sorted: seq<Boundary>, i: nat, kept: seq<Boundary>)
    requires Swept(sorted, i, kept) && i < |sorted| && kept != [] && sorted[i].start < kept[|kept| - 1].end
    ensures Swept(sorted, i + 1, kept)
  {
    assert NotAfter(kept[|kept| - 1], sorted[i]);
    assert Covers(kept[|kept| - 1], sorted[i].start);
    assert kept[|kept| - 1] in kept;
  }

  lemma SweepKeeps(sorted: seq<Boundary>, i: nat, kept: seq<Boundary>, length: nat)
    requires Swept(sorted, i, kept) && i < |sorted| && IsSorted(sorted) && MatchesIn(sorted, length)
    requires kept != [] ==> kept[|kept| - 1].end <= sorted[i].start
    ensures Swept(sorted, i + 1, kept + [sorted[i]])
  {
    var more := kept + [sorted[i]];
    forall n | 0 <= n < |kept| ensures kept[n].end <= sorted[i].start {
      assert kept[|kept| - 1] in kept;
      assert n < |kept| - 1 ==> kept[n].end <= kept[|kept| - 1].start;
    }
    forall j | 0 <= j < i + 1 ensures Accounted(sorted[j], more) {
      if j == i {
        assert more[|kept|] in more;
      } else {
        StillAccounted(sorted[j], kept, more);
      }
    }
  }

  lemma StillAccounted(b: Boundary, kept: seq<Boundary>, more: seq<Boundary>)
    requires Accounted(b, kept) && kept <= more
    ensures Accounted(b, more)
  {
    assert forall k | k in kept :: k in more;
  }

  // ----- spans and parts -----

  /** One message's stretch of the text: its quoted header, then its body. */
  datatype Span = Span(start: nat, bodyStart: nat, end: nat, sender: string)

  /** The `i`-th span: before the first boundary, or from boundary `i - 1` to the next one. */
  function SpanAt(length: nat, kept: seq<Boundary>, sender: string, i: nat): Span
    requires i <= |kept|
  {
    var end := if i < |kept| then kept[i].start else length;
    if i == 0 then Span(0, 0, end, sender) else Span(kept[i - 1].start, kept[i - 1].end, end, kept[i - 1].sender)
  }

  datatype Part = Part(position: nat, sender: string, header: string, body: string, tables: seq<Node>)

  /** The tables whose offset lies in [lo, hi). */
  function TablesIn(tables: seq<Located>, lo: nat, hi: nat): seq<Node> {
    if tables == [] then []
    else TablesIn(tables[..|tables| - 1], lo, hi)
         + if lo <= tables[|tables| - 1].0 < hi then [tables[|tables| - 1].1] else []
  }

  ghost predicate BoundsIn(kept: seq<Boundary>, length: nat) {
    InOrder(kept) && forall i | 0 <= i < |kept| :: kept[i].start < kept[i].end <= length
  }

  /** Spans partition the text: each ends where the next starts, from 0 to the end. */
  lemma SpanBounds(length: nat, kept: seq<Boundary>, sender: string, i: nat)
    requires BoundsIn(kept, length) && i <= |kept|
    ensures var s := SpanAt(length, kept, sender, i);
      && s.start <= s.bodyStart <= s.end <= length
      && s.end == (if i < |kept| then SpanAt(length, kept, sender, i + 1).start else length)
      && (i == 0 ==> s.start == s.bodyStart == 0) && (i > 0 ==> s.start < s.bodyStart)
  {
    if 0 < i < |kept| { assert kept[i - 1].end <= kept[i].start; }
  }

  function PartOf(text: string, tables: seq<Located>, s: Span, position: nat): Part
    requires s.start <= s.bodyStart <= s.end <= |text|
  {
    Part(position, s.sender, text[s.start..s.bodyStart], text[s.bodyStart..s.end], TablesIn(tables, s.bodyStart, s.end))
  }

  /** The first span is left out when it has no header and only white space. */
  predicate TopIsBlank(text: string, kept: seq<Boundary>)
    requires BoundsIn(kept, |text|)
  {
    Trim(text[..SpanAt(|text|, kept, "", 0).end]) == ""
  }

  function Skipped(text: string, kept: seq<Boundary>): nat
    requires BoundsIn(kept, |text|)
  {
    if TopIsBlank(text, kept) then 1 else 0
  }

  ghost predicate IsPart(text: string, tables: seq<Located>, s: Span, position: nat, part: Part) {
    s.start <= s.bodyStart <= s.end <= |text| && part == PartOf(text, tables, s, position)
  }

  /** One part for each span but a blank top, numbered from 0, each with its own stretch of the text and
      the tables that start in its body. */
  ghost predicate AreParts(text: string, tables: seq<Located>, kept: seq<Boundary>, sender: string, parts: seq<Part>)
    requires BoundsIn(kept, |text|)
  {
    && |parts| == |kept| + 1 - Skipped(text, kept)
    && forall i | 0 <= i < |parts| :: IsPart(text, tables, PartSpan(text, kept, sender, i), i, parts[i])
  }

  /** The span of the `i`-th part. */
  function PartSpan(text: string, kept: seq<Boundary>, sender: string, i: nat): Span
    requires BoundsIn(kept, |text|) && i + Skipped(text, kept) <= |kept|
  {
    SpanAt(|text|, kept, sender, i + Skipped(text, kept))
  }

  /** The loops of `split_email`: one part for each span, numbered from 0, except a blank top. */
  method SplitText(text: string, tables: seq<Located>, kept: seq<Boundary>, sender: string) returns (parts: seq<Part>)
    requires BoundsIn(kept, |text|)
    ensures AreParts(text, tables, kept, sender, parts)
  {
    var spans := [SpanAt(|text|, kept, sender, 0)];
    for i := 0 to |kept|
      invariant |spans| == i + 1
      invariant forall j | 0 <= j <= i :: spans[j] == SpanAt(|text|, kept, sender, j)
    {
      var end := if i + 1 < |kept| then kept[i + 1].start else |text|;
      spans := spans + [Span(kept[i].start, kept[i].end, end, kept[i].sender)];
    }
    parts := [];
    for i := 0 to |spans|
      invariant |parts| == if i == 0 then 0 else i - Skipped(text, kept)
      invariant forall j | 0 <= j < |parts| :: IsPart(text, tables, PartSpan(text, kept, sender, j), j, parts[j])
    {
      SpanBounds(|text|, kept, sender, i);
      var s := spans[i];
      var header, body := text[s.start..s.bodyStart], text[s.bodyStart..s.end];
      if header == "" && Trim(body) == "" {
        assert i == 0 && text[0..s.end] == text[..s.end];
        continue; // empty top: the thread starts with a quoted header
      }
      assert i == 0 ==> text[0..s.end] == text[..s.end];
      parts := parts + [Part(|parts|, s.sender, header, body, TablesIn(tables, s.bodyStart, s.end))];
    }
  }

  // ----- nothing is lost -----

  function Joined(parts: seq<Part>): string {
    if parts == [] then ""
    else Joined(parts[..|parts| - 1]) + parts[|parts| - 1].header + parts[|parts| - 1].body
  }

  lemma {:induction false} JoinedPrefix(
    text: string, tables: seq<Located>, kept: seq<Boundary>, sender: string, parts: seq<Part>, n: nat)
    requires BoundsIn(kept, |text|) && AreParts(text, tables, kept, sender, parts) && 0 < n <= |parts|
    ensures var lo, hi := PartSpan(text, kept, sender, 0).start, PartSpan(text, kept, sender, n - 1).end;
      lo <= hi <= |text| && Joined(parts[..n]) == text[lo..hi]
  {
    hide Skipped, TablesIn, SpanAt, BoundsIn, Joined;
    JoinedNext(parts, n);
    var s := PartSpan(text, kept, sender, n - 1);
    assert IsPart(text, tables, s, n - 1, parts[n - 1]);
    if n == 1 {
      NoneJoined(parts);
      Stretch(text, s.start, s.start, s.bodyStart, s.end);
    } else {
      JoinedPrefix(text, tables, kept, sender, parts, n - 1);
      SpanBounds(|text|, kept, sender, n - 2 + Skipped(text, kept));
      Stretch(text, PartSpan(text, kept, sender, 0).start, s.start, s.bodyStart, s.end);
    }
  }

  lemma NoneJoined(parts: seq<Part>)
    ensures Joined(parts[..0]) == ""
  {
  }

  lemma JoinedNext(parts: seq<Part>, n: nat)
    requires 0 < n <= |parts|
    ensures Joined(parts[..n]) == Joined(parts[..n - 1]) + parts[n - 1].header + parts[n - 1].body
  {
    assert parts[..n][..n - 1] == parts[..n - 1];
  }

  lemma Stretch(text: string, a: nat, b: nat, c: nat, d: nat)
    requires a <= b <= c <= d <= |text|
    ensures text[a..b] + text[b..c] + text[c..d] == text[a..d]
    ensures a == b ==> "" + text[b..c] + text[c..d] == text[a..d]
  {
  }

  /** Splitting loses nothing: headers and bodies, concatenated, are the text, apart from a blank top. */
  lemma NothingIsLost(text: string, tables: seq<Located>, kept: seq<Boundary>, sender: string, parts: seq<Part>)
    requires BoundsIn(kept, |text|) && AreParts(text, tables, kept, sender, parts)
    ensures
      if TopIsBlank(text, kept) then
        var top := SpanAt(|text|, kept, sender, 0).end;
        top <= |text| && text[..top] + Joined(parts) == text && Trim(text[..top]) == ""
      else Joined(parts) == text
  {
    SpanBounds(|text|, kept, sender, 0);
    SpanBounds(|text|, kept, sender, |kept|);
    if |parts| > 0 {
      JoinedPrefix(text, tables, kept, sender, parts, |parts|);
    }
    hide Joined, Trim, TablesIn;
    assert parts[..|parts|] == parts && text[0..|text|] == text[..|text|] == text;
    var top := SpanAt(|text|, kept, sender, 0).end;
    assert text[..top] + text[top..|text|] == text;
    if parts == [] { NoneJoined(parts); assert parts[..0] == parts; }
  }

  // ----- where a table goes -----

  predicate InBody(s: Span, p: nat) { s.bodyStart <= p < s.end }

  ghost predicate InSomeHeader(kept: seq<Boundary>, p: nat) { exists k | k in kept :: Covers(k, p) }

  lemma {:induction false} SpanOf(length: nat, kept: seq<Boundary>, sender: string, p: nat, n: nat) returns (i: nat)
    requires BoundsIn(kept, length) && n <= |kept| && p < SpanAt(length, kept, sender, n).end
    ensures i <= n && SpanAt(length, kept, sender, i).start <= p < SpanAt(length, kept, sender, i).end
  {
    SpanBounds(length, kept, sender, n);
    if p >= SpanAt(length, kept, sender, n).start {
      i := n;
    } else {
      SpanBounds(length, kept, sender, n - 1);
      i := SpanOf(length, kept, sender, p, n - 1);
    }
  }

  lemma {:induction false} SpansApart(length: nat, kept: seq<Boundary>, sender: string, i: nat, j: nat)
    requires BoundsIn(kept, length) && i < j <= |kept|
    ensures SpanAt(length, kept, sender, i).end <= SpanAt(length, kept, sender, j).start
  {
    SpanBounds(length, kept, sender, j - 1);
    if i < j - 1 { SpansApart(length, kept, sender, i, j - 1); }
  }

  /** A position of the text lies in the body of exactly one span, unless a kept header covers it, and
      then it lies in no body. */
  lemma OneBody(length: nat, kept: seq<Boundary>, sender: string, p: nat)
    requires BoundsIn(kept, length) && p < length
    ensures InSomeHeader(kept, p) ==> forall i | 0 <= i <= |kept| :: !InBody(SpanAt(length, kept, sender, i), p)
    ensures !InSomeHeader(kept, p) ==>
      exists i | 0 <= i <= |kept| :: InBody(SpanAt(length, kept, sender, i), p)
                 && forall j | 0 <= j <= |kept| && InBody(SpanAt(length, kept, sender, j), p) :: j == i
  {
    SpanBounds(length, kept, sender, |kept|);
    var i := SpanOf(length, kept, sender, p, |kept|);
    var s := SpanAt(length, kept, sender, i);
    SpanBounds(length, kept, sender, i);
    forall j | 0 <= j <= |kept| && InBody(SpanAt(length, kept, sender, j), p) ensures j == i {
      SpanBounds(length, kept, sender, j);
      if i < j { SpansApart(length, kept, sender, i, j); }
      if j < i { SpansApart(length, kept, sender, j, i); }
    }
    if p < s.bodyStart {
      assert Covers(kept[i - 1], p);
    } else {
      forall k | k in kept ensures !Covers(k, p) {
        var m :| 0 <= m < |kept| && kept[m] == k;
        SpanBounds(length, kept, sender, m + 1);
        if m + 1 < i { SpansApart(length, kept, sender, m + 1, i); }
        if i < m + 1 { SpansApart(length, kept, sender, i, m + 1); }
      }
      assert InBody(SpanAt(length, kept, sender, i), p);
    }
  }

  /** Position `p` is in the body of part `i`. */
  ghost predicate PartHolds(text: string, kept: seq<Boundary>, sender: string, i: nat, p: nat)
    requires BoundsIn(kept, |text|) && i + Skipped(text, kept) <= |kept|
  {
    InBody(PartSpan(text, kept, sender, i), p)
  }

  ghost predicate InBlankTop(text: string, kept: seq<Boundary>, p: nat)
    requires BoundsIn(kept, |text|)
  {
    TopIsBlank(text, kept) && p < SpanAt(|text|, kept, "", 0).end
  }

  /** Where each table goes. The module's description assigns every table to the message whose span
      contains it; the code does so exactly for tables that neither start inside a kept quoted header nor
      in a blank top: such a table goes to the one part whose body contains it, any other to none. */
  lemma TableGoesToOnePart(
    text: string, tables: seq<Located>, kept: seq<Boundary>, sender: string, parts: seq<Part>, p: nat)
    requires BoundsIn(kept, |text|) && AreParts(text, tables, kept, sender, parts) && p < |text|
    ensures InSomeHeader(kept, p) || InBlankTop(text, kept, p)
       <==> forall i | 0 <= i < |parts| :: !PartHolds(text, kept, sender, i, p)
    ensures forall i, j | 0 <= i < |parts| && 0 <= j < |parts|
              && PartHolds(text, kept, sender, i, p) && PartHolds(text, kept, sender, j, p) :: i == j
  {
    OneBody(|text|, kept, sender, p);
    var skipped := Skipped(text, kept);
    SpanBounds(|text|, kept, sender, 0);
    if !InSomeHeader(kept, p) {
      var n :| 0 <= n <= |kept| && InBody(SpanAt(|text|, kept, sender, n), p)
        && forall j | 0 <= j <= |kept| && InBody(SpanAt(|text|, kept, sender, j), p) :: j == n;
      if n >= skipped {
        assert PartHolds(text, kept, sender, n - skipped, p);
        if n > 0 { SpansApart(|text|, kept, sender, 0, n); SpanBounds(|text|, kept, sender, n); }
      }
    }
  }

  /** The only table of a text is in no part when a kept header or a blank top holds its start. */
  lemma LostTable(text: string, p: nat, n: Node, kept: seq<Boundary>, sender: string, parts: seq<Part>)
    requires BoundsIn(kept, |text|) && AreParts(text, [(p, n)], kept, sender, parts) && p < |text|
    requires InSomeHeader(kept, p) || InBlankTop(text, kept, p)
    ensures forall i | 0 <= i < |parts| :: parts[i].tables == []
  {
    TableGoesToOnePart(text, [(p, n)], kept, sender, parts, p);
    forall i | 0 <= i < |parts| ensures parts[i].tables == [] {
      assert !PartHolds(text, kept, sender, i, p);
      var s, only: seq<Located> := PartSpan(text, kept, sender, i), [(p, n)];
      assert IsPart(text, only, s, i, parts[i]);
      assert only[..0] == [];
      assert TablesIn(only, s.bodyStart, s.end) == if s.bodyStart <= p < s.end then [n] else [];
    }
  }

  // ----- the whole split -----

  /** No-break spaces become spaces; the length does not change. */
  function PlainSpaces(s: string): (r: string)
    ensures |r| == |s|
  {
    seq(|s|, i requires 0 <= i < |s| => if s[i] == '\U{202F}' || s[i] == '\U{A0}' then ' ' else s[i])
  }

  function UnixLines(s: string): string {
    if s == "" then ""
    else if |s| > 1 && s[0] == '\r' && s[1] == '\n' then "\n" + UnixLines(s[2..])
    else [s[0]] + UnixLines(s[1..])
  }

  function LinearText(html: Option<seq<Node>>, bodyText: string): string {
    PlainSpaces(if html.Some? then FlatAll(html.value) else UnixLines(bodyText))
  }

  function LocatedTables(html: Option<seq<Node>>): seq<Located> {
    if html.Some? then TablesAll(html.value, 0) else []
  }

  lemma TablesStartInText(html: Option<seq<Node>>, bodyText: string)
    ensures forall i | 0 <= i < |LocatedTables(html)| :: LocatedTables(html)[i].0 < |LinearText(html, bodyText)|
  {
    forall i | 0 <= i < |LocatedTables(html)| ensures LocatedTables(html)[i].0 < |LinearText(html, bodyText)| {
      RecordedOffsets(html.value, i);
    }
  }

  /** Every table of a text starts in one part, a kept header or a blank top. */
  ghost predicate TablesPlaced(
    text: string, tables: seq<Located>, kept: seq<Boundary>, sender: string, parts: seq<Part>)
    requires BoundsIn(kept, |text|) && AreParts(text, tables, kept, sender, parts)
  {
    forall n | 0 <= n < |tables| :: TablePlaced(text, kept, sender, |parts|, tables[n].0)
  }

  ghost predicate TablePlaced(text: string, kept: seq<Boundary>, sender: string, count: nat, p: nat)
    requires BoundsIn(kept, |text|) && count + Skipped(text, kept) <= |kept| + 1
  {
    && p < |text|
    && (InSomeHeader(kept, p) || InBlankTop(text, kept, p)
        || exists i | 0 <= i < count :: PartHolds(text, kept, sender, i, p))
  }

  /** The text of a body, and its innermost tables. */
  method LinearBody(html: Option<seq<Node>>, bodyText: string) returns (text: string, tables: seq<Located>)
    ensures text == LinearText(html, bodyText) && tables == LocatedTables(html)
  {
    hide FlatAll, TablesAll, UnixLines;
    var linear := "";
    tables := [];
    if html.Some? {
      linear, tables := LinearizeHtml(html.value);
    } else {
      linear := UnixLines(bodyText);
    }
    text := PlainSpaces(linear);
  }

  lemma KeptInBounds(found: seq<Boundary>, kept: seq<Boundary>, length: nat)
    requires MatchesIn(found, length) && InOrder(kept) && forall k | k in kept :: k in found
    ensures BoundsIn(kept, length)
  {
    hide InOrder;
    forall i | 0 <= i < |kept| ensures kept[i].start < kept[i].end <= length {
      assert kept[i] in found;
    }
  }

  lemma AllPlaced(text: string, tables: seq<Located>, kept: seq<Boundary>, sender: string, parts: seq<Part>)
    requires BoundsIn(kept, |text|) && AreParts(text, tables, kept, sender, parts)
    requires forall n | 0 <= n < |tables| :: tables[n].0 < |text|
    ensures TablesPlaced(text, tables, kept, sender, parts)
  {
    hide BoundsIn, InSomeHeader, InBlankTop, PartHolds, Skipped;
    forall n | 0 <= n < |tables| ensures TablePlaced(text, kept, sender, |parts|, tables[n].0) {
      TableGoesToOnePart(text, tables, kept, sender, parts, tables[n].0);
    }
  }

  /** The text is cut at `kept`, and every match and table is accounted for. */
  ghost predicate IsSplit(
    text: string, tables: seq<Located>, sender: string, found: seq<Boundary>, kept: seq<Boundary>, parts: seq<Part>)
  {
    && BoundsIn(kept, |text|) && AreParts(text, tables, kept, sender, parts)
    && (forall b | b in found :: Accounted(b, kept)) && (forall k | k in kept :: k in found)
    && TablesPlaced(text, tables, kept, sender, parts)
  }

  /** `split_email`: `html` is None when the HTML body is blank, and `matches` finds the quoted headers. A
      blank body has no part; any other is cut at headers kept from the matches, with nothing lost but a
      blank top, and each table is in exactly one part unless a kept header or that top holds its start. */
  method SplitEmail(html: Option<seq<Node>>, bodyText: string, sender: string, matches: string -> seq<Boundary>)
    returns (parts: seq<Part>)
    requires forall t :: MatchesIn(matches(t), |t|)
    ensures var text := LinearText(html, bodyText);
      if Trim(text) == "" then parts == []
      else exists kept :: IsSplit(text, LocatedTables(html), sender, matches(text), kept, parts)
  {
    hide *;
    var text, tables := LinearBody(html, bodyText);
    if Trim(text) == "" {
      return [];
    }
    var kept := KeepBoundaries(matches(text), |text|);
    KeptInBounds(matches(text), kept, |text|);
    parts := SplitText(text, tables, kept, sender);
    TablesStartInText(html, bodyText);
    AllPlaced(text, tables, kept, sender, parts);
    SplitBy(text, tables, sender, matches(text), kept, parts);
  }

  lemma SplitBy(
    text: string, tables: seq<Located>, sender: string, found: seq<Boundary>, kept: seq<Boundary>, parts: seq<Part>)
    requires BoundsIn(kept, |text|) && AreParts(text, tables, kept, sender, parts)
    requires (forall b | b in found :: Accounted(b, kept)) && (forall k | k in kept :: k in found)
    requires TablesPlaced(text, tables, kept, sender, parts)
    ensures IsSplit(text, tables, sender, found, kept, parts)
  {
  }
}
