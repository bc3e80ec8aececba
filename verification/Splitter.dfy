/** Splitting an email body into the messages of its thread (ar_pipeline/threads/splitter.py).

    HTML is taken as a parsed tree, and the matches of the quoted-header patterns as given by a function
    of the text whose matches are non-empty and lie in it. */
module Splitter {
  import opened Matching

  // ----- the HTML walk -----

  datatype Node = Text(s: string) | Comment | Tag(name: string, children: seq<Node>)

  const BLOCK_TAGS: set<string> :=
    {"p", "div", "tr", "li", "table", "blockquote", "h1", "h2", "h3", "h4", "h5", "h6", "hr", "pre", "section", "ul",
      "ol"}

  const SKIP_TAGS: set<string> := {"script", "style", "head", "title"}

  predicate IsBlock(name: string) { name in BLOCK_TAGS }

  predicate IsCell(name: string) { name == "td" || name == "th" }

  predicate IsTable(name: string) { name == "table" }

  /** White space collapsed: every run of it becomes one space. */
  function Collapse(s: string): string {
    if s == "" then ""
    else if !IsSpace(s[0]) then [s[0]] + Collapse(s[1..])
    else if |s| > 1 && IsSpace(s[1]) then Collapse(s[1..])
    else " " + Collapse(s[1..])
  }

  function TextOf(s: string): string { if Trim(Collapse(s)) == "" then "" else Collapse(s) }

  predicate HasTable(nodes: seq<Node>) {
    exists i | 0 <= i < |nodes| :: nodes[i].Tag? && (IsTable(nodes[i].name) || HasTable(nodes[i].children))
  }

  predicate IsInnermostTable(n: Node) { n.Tag? && IsTable(n.name) && !HasTable(n.children) }

  function Before(name: string): string { if IsBlock(name) then "\n" else "" }

  function CellSpace(name: string): string { if IsCell(name) then " " else "" }

  /** The text of a node in document order. */
  function Flat(n: Node): string
    decreases n, 0
  {
    match n
    case Text(s) => TextOf(s)
    case Comment => ""
    case Tag(name, children) =>
      if name in SKIP_TAGS then ""
      else if name == "br" then "\n"
      else Before(name) + CellSpace(name) + FlatAll(children) + Before(name)
  }

  function FlatAll(nodes: seq<Node>): string
    decreases nodes, 1
  {
    if nodes == [] then "" else Flat(nodes[0]) + FlatAll(nodes[1..])
  }

  /** An innermost table with the length of the text before its content. */
  type Located = (nat, Node)

  function Tables(n: Node, pos: nat): seq<Located>
    decreases n, 0
  {
    if !n.Tag? || n.name in SKIP_TAGS || n.name == "br" then []
    else
      (if IsInnermostTable(n) then [(pos + |Before(n.name)|, n)] else [])
      + TablesAll(n.children, pos + |Before(n.name)| + |CellSpace(n.name)|)
  }

  function TablesAll(nodes: seq<Node>, pos: nat): seq<Located>
    decreases nodes, 1
  {
    if nodes == [] then [] else Tables(nodes[0], pos) + TablesAll(nodes[1..], pos + |Flat(nodes[0])|)
  }

  /** What the walk's stack holds: a node to visit, or a newline to emit once a block's children are done. */
  datatype Item = Visit(node: Node) | Newline

  function ItemText(item: Item): string { if item.Visit? then Flat(item.node) else "\n" }

  function ItemTables(item: Item, pos: nat): seq<Located> { if item.Visit? then Tables(item.node, pos) else [] }

  /** The text and tables still to come from a stack, whose top is its end. */
  function StackText(stack: seq<Item>): string {
    if stack == [] then "" else ItemText(stack[|stack| - 1]) + StackText(stack[..|stack| - 1])
  }

  function StackTables(stack: seq<Item>, pos: nat): seq<Located> {
    if stack == [] then []
    else
      var top := stack[|stack| - 1];
      ItemTables(top, pos) + StackTables(stack[..|stack| - 1], pos + |ItemText(top)|)
  }

  /** `nodes` pushed so that the first is popped first. */
  function Pushed(nodes: seq<Node>): seq<Item> {
    if nodes == [] then [] else Pushed(nodes[1..]) + [Visit(nodes[0])]
  }

  function Size(n: Node): nat
    decreases n, 0
  {
    match n
    case Tag(_, children) => 2 + SizeAll(children)
    case _ => 1
  }

  function SizeAll(nodes: seq<Node>): nat
    decreases nodes, 1
  {
    if nodes == [] then 0 else Size(nodes[0]) + SizeAll(nodes[1..])
  }

  function StackSize(stack: seq<Item>): nat {
    if stack == [] then 0
    else StackSize(stack[..|stack| - 1]) + if stack[|stack| - 1].Visit? then Size(stack[|stack| - 1].node) else 1
  }

  lemma Popped(stack: seq<Item>, item: Item, pos: nat)
    ensures StackText(stack + [item]) == ItemText(item) + StackText(stack)
    ensures StackTables(stack + [item], pos) == ItemTables(item, pos) + StackTables(stack, pos + |ItemText(item)|)
    ensures StackSize(stack + [item]) == StackSize(stack) + if item.Visit? then Size(item.node) else 1
  {
    hide Flat, Tables, Size;
    assert (stack + [item])[..|stack|] == stack;
  }

  lemma PushedFirst(rest: seq<Item>, nodes: seq<Node>)
    requires nodes != []
    ensures rest + Pushed(nodes) == rest + Pushed(nodes[1..]) + [Visit(nodes[0])]
  {
  }

  lemma NoNodes(rest: seq<Item>, pos: nat)
    ensures FlatAll([]) == "" && TablesAll([], pos) == [] && rest + Pushed([]) == rest
  {
  }

  lemma FirstOfAll(nodes: seq<Node>, pos: nat)
    requires nodes != []
    ensures FlatAll(nodes) == Flat(nodes[0]) + FlatAll(nodes[1..])
    ensures TablesAll(nodes, pos) == Tables(nodes[0], pos) + TablesAll(nodes[1..], pos + |Flat(nodes[0])|)
  {
  }

  lemma VisitIs(node: Node, pos: nat)
    ensures ItemText(Visit(node)) == Flat(node) && ItemTables(Visit(node), pos) == Tables(node, pos)
  {
  }

  lemma {:induction false} PushedText(rest: seq<Item>, nodes: seq<Node>)
    ensures StackText(rest + Pushed(nodes)) == FlatAll(nodes) + StackText(rest)
    decreases |nodes|
  {
    if nodes == [] {
      assert rest + Pushed(nodes) == rest;
    } else {
      hide ItemText, Flat;
      PushedText(rest, nodes[1..]);
      PushedFirst(rest, nodes);
      Popped(rest + Pushed(nodes[1..]), Visit(nodes[0]), 0);
      VisitIs(nodes[0], 0);
    }
  }

  lemma {:induction false} PushedTables(rest: seq<Item>, nodes: seq<Node>, pos: nat)
    ensures StackTables(rest + Pushed(nodes), pos) == TablesAll(nodes, pos) + StackTables(rest, pos + |FlatAll(nodes)|)
    decreases |nodes|
  {
    hide ItemText, ItemTables, Flat, Tables, StackTables, TablesAll, FlatAll, Pushed;
    if nodes == [] {
      NoNodes(rest, pos);
    } else {
      var next := pos + |Flat(nodes[0])|;
      PushedTables(rest, nodes[1..], next);
      PushedFirst(rest, nodes);
      Popped(rest + Pushed(nodes[1..]), Visit(nodes[0]), pos);
      VisitIs(nodes[0], pos);
      FirstOfAll(nodes, pos);
      var last := StackTables(rest, next + |FlatAll(nodes[1..])|);
      assert pos + |FlatAll(nodes)| == next + |FlatAll(nodes[1..])|;
      calc {
        StackTables(rest + Pushed(nodes), pos);
        Tables(nodes[0], pos) + (TablesAll(nodes[1..], next) + last);
        (Tables(nodes[0], pos) + TablesAll(nodes[1..], next)) + last;
        TablesAll(nodes, pos) + StackTables(rest, pos + |FlatAll(nodes)|);
      }
    }
  }

  lemma {:induction false} PushedSize(rest: seq<Item>, nodes: seq<Node>)
    ensures StackSize(rest + Pushed(nodes)) == SizeAll(nodes) + StackSize(rest)
    decreases |nodes|
  {
    if nodes == [] {
      assert rest + Pushed(nodes) == rest;
    } else {
      hide Size;
      PushedSize(rest, nodes[1..]);
      PushedFirst(rest, nodes);
      Popped(rest + Pushed(nodes[1..]), Visit(nodes[0]), 0);
    }
  }

  /** What is on the stack, with what has been emitted and recorded, is the whole flattening. */
  ghost predicate Remains(nodes: seq<Node>, out: string, tables: seq<Located>, stack: seq<Item>) {
    out + StackText(stack) == FlatAll(nodes) && tables + StackTables(stack, |out|) == TablesAll(nodes, 0)
  }

  /** `_linearize_html`: the walk with an explicit stack gives the text and the table offsets of the
      recursive document-order flattening. */
  method LinearizeHtml(nodes: seq<Node>) returns (out: string, tables: seq<Located>)
    ensures out == FlatAll(nodes) && tables == TablesAll(nodes, 0)
  {
    hide *;
    out, tables := "", [];
    var stack := Pushed(nodes);
    Started(nodes);
    while stack != []
      invariant Remains(nodes, out, tables, stack)
      decreases StackSize(stack)
    {
      var item, rest := stack[|stack| - 1], stack[..|stack| - 1];
      assert stack == rest + [item];
      stack := rest;
      var leaf, text := VisitLeaf(item);
      if leaf {
        Emitted(nodes, out, tables, rest, item, text);
        out := out + text;
        continue;
      }
      TagStep(nodes, out, tables, rest, item.node);
      out, tables, stack := VisitTag(out, tables, stack, item.node);
    }
    Finished(nodes, out, tables);
  }

  lemma Started(nodes: seq<Node>)
    ensures Remains(nodes, "", [], Pushed(nodes))
  {
    PushedText([], nodes);
    PushedTables([], nodes, 0);
    assert [] + Pushed(nodes) == Pushed(nodes);
  }

  lemma Finished(nodes: seq<Node>, out: string, tables: seq<Located>)
    requires Remains(nodes, out, tables, [])
    ensures out == FlatAll(nodes) && tables == TablesAll(nodes, 0)
  {
    assert out + "" == out && tables + [] == tables;
  }

  /** An item the walk does not look into: a pending newline, text, a comment, a skipped tag, a break. */
  method VisitLeaf(item: Item) returns (leaf: bool, text: string)
    ensures leaf ==> text == ItemText(item) && forall pos :: ItemTables(item, pos) == []
    ensures !leaf ==> item.Visit? && item.node.Tag? && item.node.name !in SKIP_TAGS && item.node.name != "br"
  {
    if item == Newline {
      return true, "\n";
    }
    var node := item.node;
    if node.Comment? {
      return true, "";
    }
    if node.Text? {
      var s := Collapse(node.s);
      return true, if Trim(s) != "" then s else "";
    }
    if node.name in SKIP_TAGS {
      return true, "";
    }
    if node.name == "br" {
      return true, "\n";
    }
    return false, "";
  }

  /** The walk's treatment of a tag that is neither skipped nor a line break. */
  method VisitTag(out0: string, tables0: seq<Located>, stack0: seq<Item>, node: Node)
    returns (out: string, tables: seq<Located>, stack: seq<Item>)
    requires node.Tag?
    ensures out == out0 + Before(node.name) + CellSpace(node.name)
    ensures tables == tables0 + OwnTable(node, |out0 + Before(node.name)|)
    ensures stack == AfterTag(stack0, node)
  {
    out, tables, stack := out0, tables0, stack0;
    if IsBlock(node.name) {
      out := out + "\n";
    }
    if IsTable(node.name) && !HasTable(node.children) {
      tables := tables + [(|out|, node)];
    }
    if IsCell(node.name) {
      out := out + " ";
    }
    if IsBlock(node.name) {
      stack := stack + [Newline];
    }
    stack := stack + Pushed(node.children);
  }

  /** An item without children is done once its text is out. */
  lemma Emitted(nodes: seq<Node>, out: string, tables: seq<Located>, rest: seq<Item>, item: Item, text: string)
    requires Remains(nodes, out, tables, rest + [item])
    requires ItemText(item) == text && ItemTables(item, |out|) == []
    ensures Remains(nodes, out + text, tables, rest) && StackSize(rest) < StackSize(rest + [item])
    ensures out + "" == out
  {
    hide Flat, Tables, Size;
    Popped(rest, item, |out|);
    assert out + (text + StackText(rest)) == (out + text) + StackText(rest);
    if item.Visit? { SizePositive(item.node); }
  }

  lemma SizePositive(n: Node)
    ensures Size(n) > 0
  {
  }

  function AfterTag(rest: seq<Item>, node: Node): seq<Item>
    requires node.Tag?
  {
    (if IsBlock(node.name) then rest + [Newline] else rest) + Pushed(node.children)
  }

  function OwnTable(node: Node, pos: nat): seq<Located>
    requires node.Tag?
  {
    if IsTable(node.name) && !HasTable(node.children) then [(pos, node)] else []
  }

  /** A tag gives way to its opening text, its children and its closing newline. */
  lemma TagStep(nodes: seq<Node>, out: string, tables: seq<Located>, rest: seq<Item>, node: Node)
    requires Remains(nodes, out, tables, rest + [Visit(node)])
    requires node.Tag? && node.name !in SKIP_TAGS && node.name != "br"
    ensures Remains(nodes, out + Before(node.name) + CellSpace(node.name),
                    tables + OwnTable(node, |out + Before(node.name)|), AfterTag(rest, node))
    ensures StackSize(AfterTag(rest, node)) < StackSize(rest + [Visit(node)])
  {
    hide Flat, Tables, Size, StackText, StackTables, StackSize, Before, CellSpace, OwnTable, AfterTag, FlatAll,
      TablesAll, SizeAll;
    var opening := Before(node.name) + CellSpace(node.name);
    var own := OwnTable(node, |out + Before(node.name)|);
    Popped(rest, Visit(node), |out|);
    AfterTagIs(rest, node, |out| + |opening|);
    TagParts(node, |out|);
    assert out + Before(node.name) + CellSpace(node.name) == out + opening;
    var next := AfterTag(rest, node);
    assert (out + opening) + StackText(next) == out + (Flat(node) + StackText(rest));
    assert (tables + own) + StackTables(next, |out| + |opening|)
        == tables + (Tables(node, |out|) + StackTables(rest, |out| + |Flat(node)|));
  }

  lemma AfterTagIs(rest: seq<Item>, node: Node, pos: nat)
    requires node.Tag?
    ensures var next := AfterTag(rest, node);
      && StackText(next) == FlatAll(node.children) + Before(node.name) + StackText(rest)
      && StackTables(next, pos)
         == TablesAll(node.children, pos) + StackTables(rest, pos + |FlatAll(node.children)| + |Before(node.name)|)
      && StackSize(next) <= SizeAll(node.children) + StackSize(rest) + 1
  {
    hide Flat, Tables, Size, StackText, StackTables, StackSize, FlatAll, TablesAll, SizeAll;
    var under := if IsBlock(node.name) then rest + [Newline] else rest;
    UnderTag(rest, node.name, pos + |FlatAll(node.children)|);
    PushedText(under, node.children);
    PushedTables(under, node.children, pos);
    PushedSize(under, node.children);
  }

  lemma UnderTag(rest: seq<Item>, name: string, pos: nat)
    ensures var under := if IsBlock(name) then rest + [Newline] else rest;
      && StackText(under) == Before(name) + StackText(rest)
      && StackTables(under, pos) == StackTables(rest, pos + |Before(name)|)
      && StackSize(under) <= StackSize(rest) + 1
  {
    if IsBlock(name) { Popped(rest, Newline, pos); }
  }

  lemma TagParts(node: Node, pos: nat)
    requires node.Tag? && node.name !in SKIP_TAGS && node.name != "br"
    ensures var opening := Before(node.name) + CellSpace(node.name);
      && Flat(node) == opening + FlatAll(node.children) + Before(node.name)
      && Tables(node, pos) == OwnTable(node, pos + |Before(node.name)|) + TablesAll(node.children, pos + |opening|)
      && Size(node) == 2 + SizeAll(node.children)
  {
  }

  // ----- what a recorded offset means -----

  /** `t` is an innermost table whose own text stands in `text` at `p`, followed by its closing newline. */
  ghost predicate StandsAt(text: string, p: int, t: Node) {
    && t.Tag? && IsInnermostTable(t) && 0 <= p && p + |FlatAll(t.children)| < |text|
    && text[p..p + |FlatAll(t.children)|] == FlatAll(t.children)
  }

  lemma StandsWithin(before: string, text: string, after: string, p: int, t: Node)
    requires StandsAt(text, p, t)
    ensures StandsAt(before + text + after, |before| + p, t)
  {
    hide FlatAll, IsInnermostTable;
    var whole, n := before + text + after, |FlatAll(t.children)|;
    assert whole[|before| + p..|before| + p + n] == text[p..p + n];
  }

  lemma {:induction false} OffsetsOfNode(n: Node, pos: nat, i: nat)
    requires i < |Tables(n, pos)|
    ensures var (p, t) := Tables(n, pos)[i]; StandsAt(Flat(n), p - pos, t)
    decreases n, 0
  {
    hide *;
    TagHasTables(n, pos);
    var opening := |Before(n.name) + CellSpace(n.name)|;
    var own := |OwnTable(n, pos + |Before(n.name)|)|;
    ChildTable(n, pos, i);
    if i < own {
      OwnOffset(n);
    } else {
      OffsetsOfAll(n.children, pos + opening, i - own);
      var (p, t) := Tables(n, pos)[i];
      ChildOffset(n, p - pos - opening, t);
    }
  }

  /** A tag's `i`-th table is its own or one of its children's. */
  lemma ChildTable(n: Node, pos: nat, i: nat)
    requires n.Tag? && n.name !in SKIP_TAGS && n.name != "br" && i < |Tables(n, pos)|
    ensures var own, below := OwnTable(n, pos + |Before(n.name)|),
                              TablesAll(n.children, pos + |Before(n.name) + CellSpace(n.name)|);
      if i < |own| then IsTable(n.name) && !HasTable(n.children) && Tables(n, pos)[i] == (pos + 1, n)
      else i - |own| < |below| && Tables(n, pos)[i] == below[i - |own|]
  {
    hide TablesAll, FlatAll, HasTable, SKIP_TAGS;
    assert "table" in BLOCK_TAGS;
    TagParts(n, pos);
  }

  lemma ChildOffset(n: Node, p: int, t: Node)
    requires n.Tag? && n.name !in SKIP_TAGS && n.name != "br" && StandsAt(FlatAll(n.children), p, t)
    ensures StandsAt(Flat(n), |Before(n.name) + CellSpace(n.name)| + p, t)
  {
    TagParts(n, 0);
    hide *;
    StandsWithin(Before(n.name) + CellSpace(n.name), FlatAll(n.children), Before(n.name), p, t);
  }

  lemma TagHasTables(n: Node, pos: nat)
    requires Tables(n, pos) != []
    ensures n.Tag? && n.name !in SKIP_TAGS && n.name != "br"
  {
  }

  lemma OwnOffset(n: Node)
    requires n.Tag? && IsTable(n.name) && !HasTable(n.children)
    ensures StandsAt(Flat(n), 1, n)
  {
    assert "table" in BLOCK_TAGS && "table" !in SKIP_TAGS;
    assert Flat(n) == "\n" + FlatAll(n.children) + "\n";
    assert Flat(n)[1..1 + |FlatAll(n.children)|] == FlatAll(n.children);
  }

  lemma {:induction false} OffsetsOfAll(nodes: seq<Node>, pos: nat, i: nat)
    requires i < |TablesAll(nodes, pos)|
    ensures var (p, t) := TablesAll(nodes, pos)[i]; StandsAt(FlatAll(nodes), p - pos, t)
    decreases nodes, 1
  {
    hide Flat, Tables, IsInnermostTable;
    var first, rest := Tables(nodes[0], pos), nodes[1..];
    var (p, t) := TablesAll(nodes, pos)[i];
    assert FlatAll(nodes) == "" + Flat(nodes[0]) + FlatAll(rest) == Flat(nodes[0]) + FlatAll(rest) + "";
    if i < |first| {
      OffsetsOfNode(nodes[0], pos, i);
      StandsWithin("", Flat(nodes[0]), FlatAll(rest), p - pos, t);
    } else {
      OffsetsOfAll(rest, pos + |Flat(nodes[0])|, i - |first|);
      StandsWithin(Flat(nodes[0]), FlatAll(rest), "", p - pos - |Flat(nodes[0])|, t);
    }
  }

  /** Every recorded offset is where the table's own text starts in the linear text, before its end. */
  lemma RecordedOffsets(nodes: seq<Node>, i: nat)
    requires i < |TablesAll(nodes, 0)|
    ensures var (p, t) := TablesAll(nodes, 0)[i]; StandsAt(FlatAll(nodes), p, t)
  {
    OffsetsOfAll(nodes, 0, i);
  }
}
