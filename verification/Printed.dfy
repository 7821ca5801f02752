/** What the printer writes that reading cannot tell apart (internal/blocknote/blocknote.go): the numbers
    of numbered items, and headings of any level. */
module PrintedMarkdown {
  import opened InlineCodec
  import opened ListNesting
  import opened BlockCodec
  import opened BlockRoundTrip

  /** The place of a numbered item among the numbered siblings directly before it; 0 for other blocks. */
  function NumberOf(nodes: Document, i: nat): nat
    requires i < |nodes|
  {
    if !nodes[i].block.NumberedItem? then 0
    else if i == 0 then 1
    else 1 + NumberOf(nodes, i - 1)
  }

  /** The siblings from `i` on, each numbered by its place. */
  function PrintedFrom(nodes: Document, depth: nat, i: nat): string
    requires i <= |nodes|
    decreases |nodes| - i
  {
    if i == |nodes| then ""
    else PrintBlock(nodes[i].block, Repeat(' ', 2 * depth), NumberOf(nodes, i))
           + PrintNodes(nodes[i].children, depth + 1, 0)
           + PrintedFrom(nodes, depth, i + 1)
  }

  /** The count the printer has reached before `i`. */
  function CountBefore(nodes: Document, i: nat): nat
    requires i <= |nodes|
  {
    if i == 0 then 0 else NumberOf(nodes, i - 1)
  }

  lemma CountStep(nodes: Document, i: nat)
    requires i < |nodes|
    ensures NumberOf(nodes, i) == if nodes[i].block.NumberedItem? then CountBefore(nodes, i) + 1 else 0
  {
  }

  lemma PrintStep(nodes: Document, depth: nat, i: nat, tail: string)
    requires i < |nodes| && tail == PrintNodes(nodes[i + 1..], depth, NumberOf(nodes, i))
    ensures PrintNodes(nodes[i..], depth, CountBefore(nodes, i))
         == PrintBlock(nodes[i].block, Repeat(' ', 2 * depth), NumberOf(nodes, i)) + PrintNodes(nodes[i].children, depth + 1, 0) + tail
  {
    CountStep(nodes, i);
    assert nodes[i..][1..] == nodes[i + 1..];
  }

  lemma {:induction false} NumbersFrom(nodes: Document, depth: nat, i: nat)
    requires i <= |nodes|
    ensures PrintNodes(nodes[i..], depth, CountBefore(nodes, i)) == PrintedFrom(nodes, depth, i)
    decreases |nodes| - i
  {
    if i < |nodes| {
      NumbersFrom(nodes, depth, i + 1);
      PrintStep(nodes, depth, i, PrintedFrom(nodes, depth, i + 1));
    }
  }

  /** Numbered siblings count up from 1 and start over after any other block; children are counted on
      their own. */
  lemma NumbersCount(nodes: Document, depth: nat)
    ensures PrintNodes(nodes, depth, 0) == PrintedFrom(nodes, depth, 0)
  {
    assert nodes[0..] == nodes;
    NumbersFrom(nodes, depth, 0);
  }

  /** The number a string of digits stands for. */
  function ValueOf(digits: string): nat
    requires forall k :: 0 <= k < |digits| ==> IsDigit(digits[k])
  {
    if digits == "" then 0
    else
      assert IsDigit(digits[|digits| - 1]);
      10 * ValueOf(digits[..|digits| - 1]) + (digits[|digits| - 1] as int - '0' as int)
  }

  /** Numbers are printed in decimal, without leading zeros. */
  lemma {:induction false} DecimalValue(n: nat)
    ensures ValueOf(Decimal(n)) == n && (Decimal(n)[0] == '0' ==> n == 0)
  {
    var s := Decimal(n);
    var front := if n < 10 then "" else Decimal(n / 10);
    assert s[..|s| - 1] == front;
    if n >= 10 {
      DecimalValue(n / 10);
      assert s[0] == front[0];
    }
  }

  /** A heading of any level is written with one to three hashes, the nearest to its level, and so read
      back. */
  lemma HeadingOfAnyLevel(level: int, c: seq<Inline>)
    requires LineText(c)
    ensures Read(Write([Node(Heading(level, c), [])]))
         == [Node(Heading(if level < 1 then 1 else if level > 3 then 3 else level, c), [])]
  {
    var near := if level < 1 then 1 else if level > 3 then 3 else level;
    var doc := [Node(Heading(near, c), [])];
    assert Clamp(level) == Clamp(near) == near;
    assert PrintBlock(Heading(level, c), "", 0) == PrintBlock(Heading(near, c), "", 0);
    LonePrinted(Heading(level, c));
    LonePrinted(Heading(near, c));
    assert CanonicalDocument(doc);
    RoundTrip(doc);
  }

  lemma LonePrinted(b: Block)
    requires !b.NumberedItem?
    ensures PrintNodes([Node(b, [])], 0, 0) == PrintBlock(b, "", 0)
  {
    assert [Node(b, [])][1..] == [];
    assert Repeat(' ', 0) == "";
  }

  /** A paragraph without text leaves no trace. */
  lemma EmptyParagraphSilent(c: seq<Inline>, rest: Document, depth: nat, num: nat)
    requires Print(c) == ""
    ensures PrintNodes([Node(Paragraph(c), [])] + rest, depth, num) == PrintNodes(rest, depth, 0)
  {
    assert ([Node(Paragraph(c), [])] + rest)[1..] == rest;
  }
}
