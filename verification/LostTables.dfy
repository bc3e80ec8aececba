/** Two emails whose only table is in no message (ar_pipeline/threads/splitter.py:315-320): mail clients that
    lay out the quoted header as the rows of a table, above the payment lines. */
module LostTables {
  import opened Models
  import opened Matching
  import opened Splitter
  import opened Messages

  // ----- a quoted header -----

  predicate IsLead(s: string) { forall c | c in s :: c == ' ' || c == '\t' || c == '>' || c == '*' }

  predicate IsField(s: string) { s != "" && '\n' !in s }

  predicate IsGap(s: string) { s == "" || s == "\n" }

  /** A text the first quoted-header pattern matches: a From line, a Sent line and a Subject line, with any
      leading marks and at most one blank line between them, and an address as the sender. */
  ghost predicate IsQuotedHeader(block: string) {
    exists l1, sender, g1, l2, sent, g2, l3, subject ::
      IsHeaderBlock(block, l1, sender, g1, l2, sent, g2, l3, subject)
  }

  predicate IsHeaderBlock(
    block: string, l1: string, sender: string, g1: string, l2: string, sent: string, g2: string, l3: string,
    subject: string)
  {
    && IsLead(l1) && IsLead(l2) && IsLead(l3) && IsGap(g1) && IsGap(g2)
    && IsField(sender) && '@' in sender && IsField(sent) && IsField(subject)
    && block == l1 + "From:" + sender + "\n" + g1 + l2 + "Sent:" + sent + "\n" + g2 + l3 + "Subject:" + subject + "\n"
  }

  /** The patterns find the quoted header that stands in `text` from the start of line `start` to `end`, maybe
      a longer one there, and none before it. */
  ghost predicate FindsHeader(text: string, found: seq<Boundary>, start: nat, end: nat) {
    && 0 < start < end <= |text| && text[start - 1] == '\n' && IsQuotedHeader(text[start..end])
    && MatchesIn(found, |text|) && (exists b | b in found :: b.start == start && b.end >= end)
    && forall b | b in found :: b.start >= start
  }

  /** The first message then starts with that header. */
  lemma FirstKept(text: string, found: seq<Boundary>, kept: seq<Boundary>, start: nat, end: nat)
    requires FindsHeader(text, found, start, end) && BoundsIn(kept, |text|)
    requires (forall b | b in found :: Accounted(b, kept)) && forall k | k in kept :: k in found
    ensures kept != [] && kept[0].start == start && kept[0].end >= end
  {
    var b :| b in found && b.start == start && b.end >= end;
    assert Accounted(b, kept);
    var k: Boundary;
    if b in kept {
      k := b;
    } else {
      k :| k in kept && Covers(k, b.start) && (k.start == b.start ==> k.end >= b.end);
    }
    assert k in found && k.start >= start && k.end >= end;
    var n :| 0 <= n < |kept| && kept[n] == k;
    assert kept[0] in kept && kept[0].start >= start;
    assert 0 < n ==> kept[0].end <= kept[n].start;
  }

  /** A table above the header with nothing but white space, or inside the header, is lost. */
  lemma LostToHeader(
    text: string, p: nat, t: Node, sender: string, found: seq<Boundary>, kept: seq<Boundary>, parts: seq<Part>,
    start: nat, end: nat)
    requires FindsHeader(text, found, start, end) && IsSplit(text, [(p, t)], sender, found, kept, parts)
    requires p < end && (p < start ==> Trim(text[..start]) == "")
    ensures forall i | 0 <= i < |parts| :: parts[i].tables == []
  {
    FirstKept(text, found, kept, start, end);
    if p < start {
      assert InBlankTop(text, kept, p);
    } else {
      assert Covers(kept[0], p);
    }
    hide InBlankTop, AreParts, Trim, FindsHeader;
    LostTable(text, p, t, kept, sender, parts);
  }

  // ----- the text of such emails -----

  /** A table row of one cell. */
  function Row(s: string): Node { Tag("tr", [Tag("td", [Text(s)])]) }

  /** Text that is shown as it is written. */
  predicate IsPlain(s: string) {
    s != "" && !IsSpace(s[0]) && !IsSpace(s[|s| - 1])
    && forall i | 0 <= i < |s| && IsSpace(s[i]) :: s[i] == ' ' && (i + 1 < |s| ==> !IsSpace(s[i + 1]))
  }

  lemma {:induction false} CollapsesToItself(s: string)
    requires forall i | 0 <= i < |s| && IsSpace(s[i]) :: s[i] == ' ' && (i + 1 < |s| ==> !IsSpace(s[i + 1]))
    ensures Collapse(s) == s
  {
    hide IsSpace;
    if s != "" {
      assert forall i | 0 <= i < |s[1..]| :: s[1..][i] == s[i + 1];
      CollapsesToItself(s[1..]);
    }
  }

  lemma PlainText(s: string)
    requires IsPlain(s)
    ensures TextOf(s) == s
  {
    CollapsesToItself(s);
    assert TrimLeft(s) == s && TrimRight(s) == s;
  }

  lemma RowMarks()
    ensures "tr" !in SKIP_TAGS && "tr" != "br" && Before("tr") == "\n" && CellSpace("tr") == ""
  {
    assert "tr" in BLOCK_TAGS;
  }

  lemma RowText(s: string)
    requires IsPlain(s)
    ensures Flat(Row(s)) == "\n " + s + "\n"
  {
    hide *;
    var cell := Tag("td", [Text(s)]);
    CellText(s);
    OneNode(cell);
    RowMarks();
    RowIs(s);
    TagParts(Row(s), 0);
    assert "\n" + "" + (" " + s) + "\n" == "\n " + s + "\n";
  }

  lemma RowIs(s: string)
    ensures Row(s) == Tag("tr", [Tag("td", [Text(s)])])
  {
  }

  lemma CellText(s: string)
    requires IsPlain(s)
    ensures Flat(Tag("td", [Text(s)])) == " " + s
  {
    hide *;
    PlainText(s);
    OneNode(Text(s));
    TextIs(s);
    CellMarks();
    TagParts(Tag("td", [Text(s)]), 0);
    assert "" + " " + s + "" == " " + s;
  }

  lemma TextIs(s: string)
    ensures Flat(Text(s)) == TextOf(s)
  {
    hide TextOf;
  }

  lemma CellMarks()
    ensures "td" !in SKIP_TAGS && "td" != "br" && Before("td") == "" && CellSpace("td") == " "
  {
  }

  lemma OneNode(n: Node)
    ensures FlatAll([n]) == Flat(n) && forall pos: nat :: TablesAll([n], pos) == Tables(n, pos)
  {
    hide *;
    assert [n][0] == n && [n][1..] == [];
    FirstOfAll([n], 0);
    NoNodes([], 0);
    assert Flat(n) + "" == Flat(n);
    forall pos: nat ensures TablesAll([n], pos) == Tables(n, pos) {
      FirstOfAll([n], pos);
      NoNodes([], pos + |Flat(n)|);
      assert Tables(n, pos) + [] == Tables(n, pos);
    }
  }

  lemma FirstNode(n: Node, rest: seq<Node>)
    ensures FlatAll([n] + rest) == Flat(n) + FlatAll(rest)
    ensures forall pos: nat :: TablesAll([n] + rest, pos) == Tables(n, pos) + TablesAll(rest, pos + |Flat(n)|)
    ensures HasTable([n] + rest) <==> HasTable([n]) || HasTable(rest)
  {
    hide *;
    var all := [n] + rest;
    assert all[0] == n && all[1..] == rest;
    FirstOfAll(all, 0);
    forall pos: nat ensures TablesAll(all, pos) == Tables(n, pos) + TablesAll(rest, pos + |Flat(n)|) {
      FirstOfAll(all, pos);
    }
    FirstHasTable(n, rest);
  }

  lemma FirstHasTable(n: Node, rest: seq<Node>)
    ensures HasTable([n] + rest) <==> HasTable([n]) || HasTable(rest)
  {
    var all := [n] + rest;
    hide Flat, Tables;
    assert forall i | 0 <= i < |rest| :: all[i + 1] == rest[i];
    assert [n][0] == n == all[0];
  }

  lemma {:induction false} NoTables(n: Node, pos: nat)
    requires !HasTable([n])
    ensures Tables(n, pos) == []
    decreases n, 0
  {
    hide *;
    if Tables(n, pos) != [] {
      TagHasTables(n, pos);
    }
    if n.Tag? && n.name !in SKIP_TAGS && n.name != "br" {
      NoneInside(n, pos);
      TagParts(n, pos);
      NoTablesAll(n.children, pos + |Before(n.name) + CellSpace(n.name)|);
    }
  }

  lemma NoneInside(n: Node, pos: nat)
    requires !HasTable([n]) && n.Tag?
    ensures !HasTable(n.children) && OwnTable(n, pos + |Before(n.name)|) == []
  {
    assert [n][0] == n;
    hide Before;
  }

  lemma {:induction false} NoTablesAll(nodes: seq<Node>, pos: nat)
    requires !HasTable(nodes)
    ensures TablesAll(nodes, pos) == []
    decreases nodes, 1
  {
    hide *;
    if nodes == [] {
      NoNodes([], pos);
    } else {
      assert nodes == [nodes[0]] + nodes[1..];
      FirstNode(nodes[0], nodes[1..]);
      NoTables(nodes[0], pos);
      NoTablesAll(nodes[1..], pos + |Flat(nodes[0])|);
    }
  }

  lemma RowsHoldNoTable(s: string, rows: seq<Node>)
    requires !HasTable(rows)
    ensures !HasTable([Row(s)] + rows)
  {
    FirstNode(Row(s), rows);
    assert !HasTable([Text(s)]);
    assert !HasTable([Tag("td", [Text(s)])]);
  }

  lemma TableIs(children: seq<Node>)
    requires !HasTable(children)
    ensures var t := Tag("table", children);
      && Flat(t) == "\n" + FlatAll(children) + "\n"
      && IsInnermostTable(t) && forall pos: nat :: Tables(t, pos) == [(pos + 1, t)]
  {
    hide *;
    var t := Tag("table", children);
    TableMarks(children);
    forall pos: nat ensures Tables(t, pos) == [(pos + 1, t)] {
      TagParts(t, pos);
      NoTablesAll(children, pos + 1);
      assert [(pos + 1, t)] + [] == [(pos + 1, t)];
    }
    TagParts(t, 0);
  }

  lemma TableMarks(children: seq<Node>)
    requires !HasTable(children)
    ensures var t := Tag("table", children);
      && t.name !in SKIP_TAGS && t.name != "br" && Before(t.name) == "\n" && CellSpace(t.name) == ""
      && IsInnermostTable(t) && (forall pos: nat :: OwnTable(t, pos) == [(pos, t)])
      && Before(t.name) + CellSpace(t.name) == "\n"
  {
    assert "table" in BLOCK_TAGS && "table" !in SKIP_TAGS;
    hide HasTable;
  }

  // ----- the whole advice in one table -----

  /** A table whose first rows are the quoted header and whose other rows are anything, payment lines say. */
  function HeaderTable(rows: seq<Node>): Node {
    Tag("table", [Row("From: a@b.c")] + ([Row("Sent: x")] + ([Row("Subject: s")] + rows)))
  }

  const QUOTED := " From: a@b.c" + "\n\n" + " Sent: x" + "\n\n" + " Subject: s" + "\n"

  lemma HeaderFields()
    ensures IsLead("") && IsLead(" ") && IsGap("\n") && IsField(" x") && IsField(" s")
    ensures IsField(" a@b.c") && '@' in " a@b.c"
  {
    assert " a@b.c"[2] == '@';
  }

  lemma FieldLines()
    ensures " " + "From:" + " a@b.c" == " From: a@b.c" && "" + "From:" + " a@b.c" == "From: a@b.c"
    ensures " " + "Sent:" + " x" == " Sent: x" && " " + "Subject:" + " s" == " Subject: s"
    ensures "\n" + "\n" == "\n\n"
  {
  }

  /** Three header lines with a blank line between them. */
  lemma LinesAreHeader(l1: string, sender: string, l2: string, sent: string, l3: string, subject: string)
    requires IsLead(l1) && IsLead(l2) && IsLead(l3)
    requires IsField(sender) && '@' in sender && IsField(sent) && IsField(subject)
    ensures IsQuotedHeader((l1 + "From:" + sender) + ("\n" + "\n") + (l2 + "Sent:" + sent) + ("\n" + "\n")
                           + (l3 + "Subject:" + subject) + "\n")
  {
    hide IsLead, IsField;
    var block := (l1 + "From:" + sender) + ("\n" + "\n") + (l2 + "Sent:" + sent) + ("\n" + "\n")
                 + (l3 + "Subject:" + subject) + "\n";
    Regroup(l1, "From:", sender, "\n", l2, "Sent:", sent, l3, "Subject:", subject);
    assert IsHeaderBlock(block, l1, sender, "\n", l2, sent, "\n", l3, subject);
  }

  lemma Regroup(
    a1: string, a2: string, a3: string, n: string, b1: string, b2: string, b3: string,
    c1: string, c2: string, c3: string)
    ensures (a1 + a2 + a3) + (n + n) + (b1 + b2 + b3) + (n + n) + (c1 + c2 + c3) + n
         == a1 + a2 + a3 + n + n + b1 + b2 + b3 + n + n + c1 + c2 + c3 + n
  {
  }

  lemma QuotedIsHeader()
    ensures IsQuotedHeader(QUOTED)
  {
    HeaderFields();
    FieldLines();
    hide IsLead, IsField, IsQuotedHeader;
    LinesAreHeader(" ", " a@b.c", " ", " x", " ", " s");
  }

  lemma HeaderTableText(rows: seq<Node>)
    requires !HasTable(rows)
    ensures Flat(HeaderTable(rows)) == "\n\n" + QUOTED + FlatAll(rows) + "\n"
    ensures forall pos: nat :: Tables(HeaderTable(rows), pos) == [(pos + 1, HeaderTable(rows))]
  {
    var subject := [Row("Subject: s")] + rows;
    var sent := [Row("Sent: x")] + subject;
    var from := [Row("From: a@b.c")] + sent;
    hide *;
    RowsHoldNoTable("Subject: s", rows);
    RowsHoldNoTable("Sent: x", subject);
    RowsHoldNoTable("From: a@b.c", sent);
    HeaderRows();
    Indented();
    AfterRow("Subject: s", rows);
    AfterRow("Sent: x", subject);
    AfterRow("From: a@b.c", sent);
    TableIs(from);
    HeaderTableIs(rows);
    Joined("\n", " From: a@b.c", " Sent: x", " Subject: s", FlatAll(rows));
    assert FlatAll(from) == "\n" + " From: a@b.c" + "\n" + FlatAll(sent);
    assert FlatAll(sent) == "\n" + " Sent: x" + "\n" + FlatAll(subject);
    assert FlatAll(subject) == "\n" + " Subject: s" + "\n" + FlatAll(rows);
    assert HeaderTable(rows) == Tag("table", from);
  }

  lemma Joined(n: string, a: string, b: string, c: string, rest: string)
    ensures n + (n + a + n + (n + b + n + (n + c + n + rest))) + n
         == n + n + (a + (n + n) + b + (n + n) + c + n) + rest + n
  {
  }

  lemma HeaderTableIs(rows: seq<Node>)
    ensures HeaderTable(rows) == Tag("table", [Row("From: a@b.c")] + ([Row("Sent: x")] + ([Row("Subject: s")] + rows)))
    ensures QUOTED == " From: a@b.c" + ("\n" + "\n") + " Sent: x" + ("\n" + "\n") + " Subject: s" + "\n"
    ensures "\n\n" == "\n" + "\n"
  {
  }

  lemma AfterRow(s: string, rows: seq<Node>)
    requires IsPlain(s)
    ensures FlatAll([Row(s)] + rows) == "\n" + (" " + s) + "\n" + FlatAll(rows)
  {
    hide *;
    RowText(s);
    FirstNode(Row(s), rows);
    assert "\n " + s + "\n" == "\n" + (" " + s) + "\n";
  }

  lemma HeaderRows()
    ensures IsPlain("Subject: s") && IsPlain("Sent: x") && IsPlain("From: a@b.c")
  {
    PlainFields();
  }

  lemma PlainFields()
    ensures IsPlain("Subject: s") && IsPlain("Sent: x")
  {
  }

  lemma Indented()
    ensures " " + "Subject: s" == " Subject: s" && " " + "Sent: x" == " Sent: x"
      && " " + "From: a@b.c" == " From: a@b.c"
  {
  }

  predicate NoHardSpace(s: string) { forall c | c in s :: c != '\U{202F}' && c != '\U{A0}' }

  lemma StartsAlike(lead: string, quoted: string, rest: string)
    requires NoHardSpace(lead) && NoHardSpace(quoted)
    ensures var text, n := PlainSpaces(lead + quoted + rest), |lead| + |quoted|;
      n <= |text| && text[..|lead|] == lead && text[|lead|..n] == quoted
  {
    var flat := lead + quoted + rest;
    var text := PlainSpaces(flat);
    forall i | 0 <= i < |lead| ensures text[i] == lead[i] {
      assert flat[i] == lead[i] && lead[i] in lead;
    }
    forall i | 0 <= i < |quoted| ensures text[|lead| + i] == quoted[i] {
      assert flat[|lead| + i] == quoted[i] && quoted[i] in quoted;
    }
  }

  lemma QuotedIsPlain()
    ensures NoHardSpace("\n\n") && NoHardSpace(QUOTED)
  {
  }

  lemma HeaderTableLinear(rows: seq<Node>)
    requires !HasTable(rows)
    ensures var html := Some([HeaderTable(rows)]); var text, end := LinearText(html, ""), 2 + |QUOTED|;
      && LocatedTables(html) == [(1, HeaderTable(rows))]
      && end <= |text| && text[..2] == "\n\n" && text[2..end] == QUOTED
  {
    hide HeaderTable, Tables, QUOTED, Flat;
    var t := HeaderTable(rows);
    HeaderTableText(rows);
    OneNode(t);
    QuotedIsPlain();
    StartsAlike("\n\n", QUOTED, FlatAll(rows) + "\n");
    hide FlatAll, TablesAll;
    assert Flat(t) == "\n\n" + QUOTED + (FlatAll(rows) + "\n");
  }

  /** The header and all payment lines in one table: it starts above the header, on a blank line that becomes
      no message. The text of the payment lines stays in the message, but no part has the table. */
  lemma TopTableIsLost(rows: seq<Node>, sender: string, found: seq<Boundary>, kept: seq<Boundary>, parts: seq<Part>)
    requires !HasTable(rows)
    ensures var html := Some([HeaderTable(rows)]); var text, end := LinearText(html, ""), 2 + |QUOTED|;
      && LocatedTables(html) == [(1, HeaderTable(rows))]
      && end <= |text| && text[1] == '\n' && IsQuotedHeader(text[2..end])
      && (FindsHeader(text, found, 2, end) && IsSplit(text, LocatedTables(html), sender, found, kept, parts) ==>
            forall i | 0 <= i < |parts| :: parts[i].tables == [])
  {
    hide HeaderTable, LocatedTables, QUOTED, LinearText;
    var html := Some([HeaderTable(rows)]);
    var text, end := LinearText(html, ""), 2 + |QUOTED|;
    HeaderTableLinear(rows);
    QuotedIsHeader();
    assert text[1] == text[..2][1] == '\n';
    assert Trim("\n\n") == "";
    hide FindsHeader, IsSplit, Trim, IsQuotedHeader;
    if FindsHeader(text, found, 2, end) && IsSplit(text, LocatedTables(html), sender, found, kept, parts) {
      LostToHeader(text, 1, HeaderTable(rows), sender, found, kept, parts, 2, end);
    }
  }

  // ----- the header split between text and a table -----

  /** The sender above a table whose first rows are the rest of the quoted header. */
  function SplitHeader(rows: seq<Node>): Node { Tag("div", [Text("From: a@b.c"), RestTable(rows)]) }

  function RestTable(rows: seq<Node>): Node { Tag("table", [Row("Sent: x")] + ([Row("Subject: s")] + rows)) }

  const SPLIT_QUOTED := "From: a@b.c" + "\n\n" + " Sent: x" + "\n\n" + " Subject: s" + "\n"

  lemma SplitQuotedIsHeader()
    ensures IsQuotedHeader(SPLIT_QUOTED)
  {
    HeaderFields();
    FieldLines();
    hide IsLead, IsField, IsQuotedHeader;
    LinesAreHeader("", " a@b.c", " ", " x", " ", " s");
  }

  lemma SplitQuotedIsPlain()
    ensures NoHardSpace("\n") && NoHardSpace(SPLIT_QUOTED)
  {
  }

  lemma RestTableText(rows: seq<Node>)
    requires !HasTable(rows)
    ensures Flat(RestTable(rows)) == "\n" + ("\n" + " Sent: x" + "\n" + ("\n" + " Subject: s" + "\n" + FlatAll(rows)))
      + "\n"
    ensures forall pos: nat :: Tables(RestTable(rows), pos) == [(pos + 1, RestTable(rows))]
  {
    var subject := [Row("Subject: s")] + rows;
    var sent := [Row("Sent: x")] + subject;
    hide *;
    RowsHoldNoTable("Subject: s", rows);
    RowsHoldNoTable("Sent: x", subject);
    HeaderRows();
    Indented();
    AfterRow("Subject: s", rows);
    AfterRow("Sent: x", subject);
    TableIs(sent);
    RestTableIs(rows);
  }

  lemma RestTableIs(rows: seq<Node>)
    ensures RestTable(rows) == Tag("table", [Row("Sent: x")] + ([Row("Subject: s")] + rows))
    ensures SplitHeader(rows) == Tag("div", [Text("From: a@b.c")] + [RestTable(rows)])
  {
  }

  lemma DivMarks(children: seq<Node>)
    ensures "div" !in SKIP_TAGS && "div" != "br" && Before("div") == "\n" && CellSpace("div") == ""
    ensures OwnTable(Tag("div", children), 1) == [] && |"\n"| == 1
  {
    assert "div" in BLOCK_TAGS;
  }

  lemma DivIs(children: seq<Node>)
    ensures var n := Tag("div", children);
      Flat(n) == "\n" + FlatAll(children) + "\n" && Tables(n, 0) == TablesAll(children, 1)
  {
    hide *;
    DivMarks(children);
    TagParts(Tag("div", children), 0);
    assert "\n" + "" == "\n";
  }

  lemma FromText()
    ensures Flat(Text("From: a@b.c")) == "From: a@b.c" && |"From: a@b.c"| == 11
    ensures forall pos: nat :: Tables(Text("From: a@b.c"), pos) == []
  {
    HeaderRows();
    PlainText("From: a@b.c");
    TextIs("From: a@b.c");
    hide TextOf, Flat;
  }

  lemma JoinedSplit(n: string, a: string, b: string, c: string, rest: string)
    ensures n + (a + (n + (n + b + n + (n + c + n + rest)) + n)) + n
         == n + (a + (n + n) + b + (n + n) + c + n) + (rest + n + n)
  {
  }

  lemma SplitHeaderText(rows: seq<Node>)
    requires !HasTable(rows)
    ensures Flat(SplitHeader(rows)) == "\n" + SPLIT_QUOTED + (FlatAll(rows) + "\n" + "\n")
    ensures Tables(SplitHeader(rows), 0) == [(13, RestTable(rows))]
  {
    hide *;
    var from, t := Text("From: a@b.c"), RestTable(rows);
    RestTableIs(rows);
    RestTableText(rows);
    DivIs([from] + [t]);
    FirstNode(from, [t]);
    FromText();
    OneNode(t);
    JoinedSplit("\n", "From: a@b.c", " Sent: x", " Subject: s", FlatAll(rows));
    SplitQuotedIs();
    assert [] + [(13, t)] == [(13, t)];
  }

  lemma SplitQuotedIs()
    ensures SPLIT_QUOTED == "From: a@b.c" + ("\n" + "\n") + " Sent: x" + ("\n" + "\n") + " Subject: s" + "\n"
    ensures |SPLIT_QUOTED| > 12
  {
  }

  lemma SplitHeaderLinear(rows: seq<Node>)
    requires !HasTable(rows)
    ensures var html := Some([SplitHeader(rows)]); var text, end := LinearText(html, ""), 1 + |SPLIT_QUOTED|;
      && LocatedTables(html) == [(13, RestTable(rows))]
      && end <= |text| && text[..1] == "\n" && text[1..end] == SPLIT_QUOTED
  {
    hide SplitHeader, RestTable, Tables, SPLIT_QUOTED, Flat;
    SplitHeaderText(rows);
    OneNode(SplitHeader(rows));
    SplitQuotedIsPlain();
    StartsAlike("\n", SPLIT_QUOTED, FlatAll(rows) + "\n" + "\n");
    hide FlatAll, TablesAll;
  }

  /** The header's sender in a line of its own and the rest in the table: the table starts inside the header,
      and no part has it. */
  lemma SplitTableIsLost(rows: seq<Node>, sender: string, found: seq<Boundary>, kept: seq<Boundary>, parts: seq<Part>)
    requires !HasTable(rows)
    ensures var html := Some([SplitHeader(rows)]); var text, end := LinearText(html, ""), 1 + |SPLIT_QUOTED|;
      && LocatedTables(html) == [(13, RestTable(rows))]
      && end <= |text| && text[0] == '\n' && IsQuotedHeader(text[1..end])
      && (FindsHeader(text, found, 1, end) && IsSplit(text, LocatedTables(html), sender, found, kept, parts) ==>
            forall i | 0 <= i < |parts| :: parts[i].tables == [])
  {
    hide SplitHeader, RestTable, LocatedTables, SPLIT_QUOTED, LinearText;
    var html := Some([SplitHeader(rows)]);
    var text, end := LinearText(html, ""), 1 + |SPLIT_QUOTED|;
    SplitHeaderLinear(rows);
    SplitQuotedIsHeader();
    SplitQuotedIs();
    assert text[0] == text[..1][0] == '\n';
    hide FindsHeader, IsSplit, Trim, IsQuotedHeader;
    if FindsHeader(text, found, 1, end) && IsSplit(text, LocatedTables(html), sender, found, kept, parts) {
      LostToHeader(text, 13, RestTable(rows), sender, found, kept, parts, 1, end);
    }
  }
}
