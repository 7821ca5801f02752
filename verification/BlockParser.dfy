/** The codec as the source runs it: a cursor over the lines, a pending paragraph and the node stack
    for reading, a growing buffer for writing. Each method is proved to compute the specification
    functions of `BlockCodec`. */
module BlockParser {
  import opened Text
  import opened InlineCodec
  import opened ListNesting
  import opened BlockCodec

  lemma LeadFrom(lines: seq<string>, kind: string -> bool, start: nat, next: nat)
    requires start <= next <= |lines| && forall k :: start <= k < next ==> kind(lines[k])
    requires next < |lines| ==> !kind(lines[next])
    ensures Lead(lines[start..], kind) == next - start
    ensures lines[start..][..next - start] == lines[start..next]
  {
    LeadIs(lines[start..], kind, next - start);
  }

  method CollectCode(lines: seq<string>, start: nat) returns (code: seq<string>, next: nat)
    requires start <= |lines|
    ensures code == lines[start..][..Lead(lines[start..], IsNotFence)]
    ensures next == start + |code|
  {
    code, next := [], start;
    while next < |lines| && !IsFence(lines[next])
      invariant start <= next <= |lines| && code == lines[start..next]
      invariant forall k :: start <= k < next ==> IsNotFence(lines[k])
    {
      assert lines[start..next + 1] == lines[start..next] + [lines[next]];
      code := code + [lines[next]];
      next := next + 1;
    }
    LeadFrom(lines, IsNotFence, start, next);
  }

  method CollectRows(lines: seq<string>, start: nat) returns (rows: seq<seq<string>>, next: nat)
    requires start <= |lines|
    ensures rows == Map(lines[start..][..Lead(lines[start..], IsRow)], SplitRow)
    ensures next == start + |rows|
  {
    rows, next := [], start;
    while next < |lines| && TrimSpace(lines[next]) != "" && '|' in TrimSpace(lines[next])
      invariant start <= next <= |lines| && rows == Map(lines[start..next], SplitRow)
      invariant forall k :: start <= k < next ==> IsRow(lines[k])
    {
      assert lines[start..next + 1] == lines[start..next] + [lines[next]];
      rows := rows + [SplitRow(lines[next])];
      next := next + 1;
    }
    LeadFrom(lines, IsRow, start, next);
  }

  method CollectQuote(lines: seq<string>, start: nat) returns (texts: seq<string>, next: nat)
    requires start <= |lines|
    ensures texts == Map(lines[start..][..Lead(lines[start..], IsQuote)], QuoteText)
    ensures next == start + |texts|
  {
    texts, next := [], start;
    while next < |lines| && IsQuote(lines[next])
      invariant start <= next <= |lines| && texts == Map(lines[start..next], QuoteText)
      invariant forall k :: start <= k < next ==> IsQuote(lines[k])
    {
      assert lines[start..next + 1] == lines[start..next] + [lines[next]];
      texts := texts + [QuoteText(lines[next])];
      next := next + 1;
    }
    LeadFrom(lines, IsQuote, start, next);
  }

  method TakeCodeAt(lines: seq<string>, i: nat) returns (t: Taken)
    requires i < |lines| && IsFence(lines[i])
    ensures t == TakeCode(lines[i..])
  {
    assert lines[i..][1..] == lines[i + 1..];
    var code, next := CollectCode(lines, i + 1);
    t := Emit(Root(CodeBlock(TrimSpace(TrimSpace(lines[i])[3..]), Join(code, "\n"))),
              if next < |lines| then next + 1 - i else next - i);
  }

  method TakeTableAt(lines: seq<string>, i: nat) returns (t: Taken)
    requires i + 1 < |lines|
    ensures t == TakeTable(lines[i..])
  {
    assert lines[i..][2..] == lines[i + 2..];
    var rows, next := CollectRows(lines, i + 2);
    t := Emit(Root(TableOf([SplitRow(TrimSpace(lines[i]))] + rows)), next - i);
  }

  method TakeQuoteAt(lines: seq<string>, i: nat) returns (t: Taken)
    requires i < |lines| && IsQuote(lines[i])
    ensures t == TakeQuote(lines[i..])
  {
    var texts, next := CollectQuote(lines, i);
    var content := ParseInline(Join(texts, " "));
    t := Emit(Root(Quote(content)), next - i);
  }

  /** Reads the block that starts at line `i`, with the loops that gather its lines. */
  method TakeAt(lines: seq<string>, i: nat) returns (t: Taken)
    requires i < |lines|
    ensures t == Take(lines[i..])
  {
    var line := TrimSpace(lines[i]);
    if "```" <= line {
      t := TakeCodeAt(lines, i);
    } else if line == "" || HeadingMatch(line).Some? || IsThematic(line) {
      t := Take(lines[i..]);
    } else if IsTableStart(lines[i..]) {
      t := TakeTableAt(lines, i);
    } else if ">" <= line {
      t := TakeQuoteAt(lines, i);
    } else {
      t := Take(lines[i..]);
    }
  }

  /** Ends the pending paragraph, if there is one. */
  method Flush(tree: TreeBuilder<Block>, para: seq<string>)
    requires tree.Valid()
    modifies tree
    ensures tree.Valid() && tree.items == old(tree.items) + FlushPara(para)
  {
    if para != [] {
      var content := ParseInline(Join(para, " "));
      tree.AddRoot(Paragraph(content));
    }
  }

  /** Adds the block just read, if it is one. */
  method Add(tree: TreeBuilder<Block>, t: Taken)
    requires tree.Valid()
    modifies tree
    ensures tree.Valid() && tree.items == old(tree.items) + t.Items()
  {
    if t.Emit? {
      match t.item {
        case Root(b) => tree.AddRoot(b);
        case ListItem(indent, b) => tree.AddListItem(indent, b);
      }
    }
  }

  /** A block ends the pending paragraph and is added after it. */
  method FlushAndAdd(tree: TreeBuilder<Block>, para: seq<string>, t: Taken)
    requires tree.Valid()
    modifies tree
    ensures tree.Valid() && tree.items == old(tree.items) + FlushPara(para) + t.Items()
  {
    Flush(tree, para);
    Add(tree, t);
  }

  /** The scan with an accumulator: what the loop computes from where it stands. */
  function ReadFrom(items: seq<Item<Block>>, left: seq<string>, para: seq<string>): seq<Item<Block>>
    decreases |left|
  {
    if left == [] then items + FlushPara(para)
    else
      var t := Take(left);
      if t.ParaLine? then ReadFrom(items, left[1..], para + [t.line])
      else ReadFrom(items + FlushPara(para) + t.Items(), left[t.Size()..], [])
  }

  lemma {:induction false} ReadFromIsScan(items: seq<Item<Block>>, left: seq<string>, para: seq<string>)
    ensures ReadFrom(items, left, para) == items + Scan(left, para)
    decreases |left|
  {
    if left != [] {
      var t := Take(left);
      if t.ParaLine? {
        ReadFromIsScan(items, left[1..], para + [t.line]);
      } else {
        ReadFromIsScan(items + FlushPara(para) + t.Items(), left[t.Size()..], []);
        Regroup(items, FlushPara(para), t.Items(), Scan(left[t.Size()..], []));
      }
    }
  }

  /** One turn of the reading loop. */
  method ReadBlock(tree: TreeBuilder<Block>, lines: seq<string>, i: nat, para: seq<string>)
    returns (next: nat, rest: seq<string>)
    requires tree.Valid() && i < |lines|
    modifies tree
    ensures tree.Valid() && i < next <= |lines|
    ensures ReadFrom(tree.items, lines[next..], rest) == ReadFrom(old(tree.items), lines[i..], para)
  {
    var t := TakeAt(lines, i);
    next := i + t.Size();
    assert lines[i..][t.Size()..] == lines[next..];
    if t.ParaLine? {
      rest := para + [t.line];
    } else {
      rest := [];
      FlushAndAdd(tree, para, t);
    }
  }

  /** All lines are read into the tree. */
  method ReadLines(tree: TreeBuilder<Block>, lines: seq<string>)
    requires tree.Valid() && tree.items == []
    modifies tree
    ensures tree.Valid() && tree.items == ReadFrom([], lines, [])
  {
    var para: seq<string> := [];
    var i := 0;
    assert lines[0..] == lines;
    while i < |lines|
      invariant 0 <= i <= |lines| && tree.Valid()
      invariant ReadFrom(tree.items, lines[i..], para) == ReadFrom([], lines, [])
    {
      i, para := ReadBlock(tree, lines, i, para);
    }
    assert lines[i..] == [];
    Flush(tree, para);
  }

  lemma ReadIsForest(md: string)
    ensures Read(md) == Forest(ReadFrom([], Lines(md), []))
  {
    ReadFromIsScan([], Lines(md), []);
    assert [] + Scan(Lines(md), []) == Scan(Lines(md), []);
  }

  /** Reads the nested blocks off the links. */
  method Nested(tree: TreeBuilder<Block>) returns (doc: Document)
    requires tree.Valid()
    ensures doc == Forest(tree.items)
  {
    NestingIsForest(tree.items, tree.parents);
    doc := Collect(tree.items, tree.parents, -1, 0);
  }

  method MarkdownToBlocks(md: string) returns (doc: Document)
    ensures doc == Read(md)
  {
    var tree := new TreeBuilder<Block>();
    ReadLines(tree, Lines(md));
    ReadIsForest(md);
    doc := Nested(tree);
  }

  method RenderRow(row: Cells, indent: string) returns (s: string)
    ensures s == PrintRow(Map(row, Print), indent)
  {
    var cells: seq<string> := [];
    for c := 0 to |row|
      invariant cells == Map(row[..c], Print)
    {
      assert row[..c + 1] == row[..c] + [row[c]];
      cells := cells + [Print(row[c])];
    }
    assert row[..|row|] == row;
    s := PrintRow(cells, indent);
  }

  method RenderTable(rows: seq<Cells>, indent: string) returns (s: string)
    ensures s == PrintTable(rows, indent)
  {
    if rows == [] {
      return "";
    }
    s := RenderRow(rows[0], indent);
    s := s + PrintRow(Map(rows[0], _ => "---"), indent);
    ghost var head := s;
    var i := 1;
    while i < |rows|
      invariant 1 <= i <= |rows|
      invariant s + PrintRows(rows[i..], indent) == head + PrintRows(rows[1..], indent)
    {
      var row := RenderRow(rows[i], indent);
      assert rows[i..][1..] == rows[i + 1..];
      s := s + row;
      i := i + 1;
    }
    assert rows[i..] == [];
    s := s + "\n";
  }

  lemma NodesStep(nodes: Document, depth: nat, num: nat, i: nat, n: nat)
    requires i < |nodes| && n == if nodes[i].block.NumberedItem? then num + 1 else 0
    ensures PrintNodes(nodes[i..], depth, num)
         == PrintBlock(nodes[i].block, Repeat(' ', 2 * depth), n) + PrintNodes(nodes[i].children, depth + 1, 0)
            + PrintNodes(nodes[i + 1..], depth, n)
  {
    assert nodes[i..][1..] == nodes[i + 1..];
  }

  method RenderBlock(b: Block, indent: string, num: nat) returns (s: string)
    ensures s == PrintBlock(b, indent, num)
  {
    if b.Table? {
      s := RenderTable(b.rows, indent);
    } else {
      s := PrintBlock(b, indent, num);
    }
  }

  method RenderBlocks(nodes: Document, depth: nat) returns (s: string)
    ensures s == PrintNodes(nodes, depth, 0)
    decreases nodes
  {
    s := "";
    var num: nat := 0;
    ghost var all := PrintNodes(nodes, depth, 0);
    assert nodes[0..] == nodes;
    for i := 0 to |nodes|
      invariant s + PrintNodes(nodes[i..], depth, num) == all
    {
      var n: nat := if nodes[i].block.NumberedItem? then num + 1 else 0;
      NodesStep(nodes, depth, num, i, n);
      num := n;
      var own := RenderBlock(nodes[i].block, Repeat(' ', 2 * depth), num);
      var below := RenderBlocks(nodes[i].children, depth + 1);
      Regroup(s, own, below, PrintNodes(nodes[i + 1..], depth, num));
      s := s + own + below;
    }
  }

  method BlocksToMarkdown(doc: Document) returns (md: string)
    ensures md == Write(doc)
  {
    var s := RenderBlocks(doc, 0);
    md := TrimNewlines(s);
  }
}
