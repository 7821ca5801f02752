/** The block half of the Markdown codec (internal/blocknote/blocknote.go): recognising lines,
    reading them into nested blocks, and printing blocks back to text. */
module BlockCodec {
  import opened Text
  import opened InlineCodec
  import opened ListNesting

  type Cells = seq<seq<Inline>>

  datatype Block =
    | Heading(level: int, content: seq<Inline>)
    | Paragraph(content: seq<Inline>)
    | CodeBlock(language: string, code: string)
    | BulletItem(content: seq<Inline>)
    | NumberedItem(content: seq<Inline>)
    | CheckItem(checked: bool, content: seq<Inline>)
    | Quote(content: seq<Inline>)
    | Table(rows: seq<Cells>)
    | Divider

  type Document = seq<Node<Block>>

  predicate IsListItem(b: Block) {
    b.BulletItem? || b.NumberedItem? || b.CheckItem?
  }

  // ----- recognising a line -----

  function DropReSpace(s: string): string {
    if s != "" && IsReSpace(s[0]) then DropReSpace(s[1..]) else s
  }

  function DropReSpaceEnd(s: string): string {
    if s != "" && IsReSpace(s[|s| - 1]) then DropReSpaceEnd(s[..|s| - 1]) else s
  }

  predicate IsDigit(c: char) {
    '0' <= c <= '9'
  }

  predicate IsHash(c: char) {
    c == '#'
  }

  predicate IsIndent(c: char) {
    c == ' ' || c == '\t'
  }

  /** The length of the run of characters of one kind that opens `s`. */
  function RunLength(s: string, kind: char -> bool): (n: nat)
    ensures n <= |s| && forall k :: 0 <= k < n ==> kind(s[k])
    ensures n < |s| ==> !kind(s[n])
  {
    if s == "" || !kind(s[0]) then 0 else 1 + RunLength(s[1..], kind)
  }

  /** `^(#{1,6})\s+(.*)$` */
  function HeadingMatch(line: string): Option<(int, string)> {
    var n := RunLength(line, IsHash);
    if 1 <= n <= 6 && n < |line| && IsReSpace(line[n]) then Some((n, DropReSpace(line[n..]))) else None
  }

  /** `^[-*]\s+(.*)$` */
  function BulletMatch(line: string): Option<string> {
    if |line| > 1 && line[0] in {'-', '*'} && IsReSpace(line[1]) then Some(DropReSpace(line[1..])) else None
  }

  /** `^[-*]\s+\[([ xX])\]\s+(.*)$` */
  function CheckMatch(line: string): Option<(bool, string)> {
    match BulletMatch(line)
    case None => None
    case Some(t) =>
      if |t| > 3 && t[0] == '[' && t[1] in {' ', 'x', 'X'} && t[2] == ']' && IsReSpace(t[3])
      then Some((t[1] != ' ', DropReSpace(t[3..])))
      else None
  }

  /** `^(\d+)\.\s+(.*)$` */
  function NumberMatch(line: string): Option<string> {
    var n := RunLength(line, IsDigit);
    if n >= 1 && n + 1 < |line| && line[n] == '.' && IsReSpace(line[n + 1])
    then Some(DropReSpace(line[n + 1..]))
    else None
  }

  /** `^(-{3,}|\*{3,}|_{3,})$` */
  predicate IsThematic(line: string) {
    |line| >= 3 && line[0] in {'-', '*', '_'} && forall k :: 0 <= k < |line| ==> line[k] == line[0]
  }

  function TrimPipes(s: string): string {
    var t := if "|" <= s then s[1..] else s;
    if t != "" && t[|t| - 1] == '|' then t[..|t| - 1] else t
  }

  /** `\s*:?-+:?\s*` */
  predicate IsSepCell(cell: string) {
    var t := DropReSpaceEnd(DropReSpace(cell));
    var u := if ":" <= t then t[1..] else t;
    var v := if u != "" && u[|u| - 1] == ':' then u[..|u| - 1] else u;
    v != "" && forall k :: 0 <= k < |v| ==> v[k] == '-'
  }

  /** `^\|?\s*:?-+:?\s*(\|\s*:?-+:?\s*)+\|?$`: at least two cells between optional outer pipes. */
  predicate IsTableSep(line: string) {
    var cells := Split(TrimPipes(line), '|');
    |cells| >= 2 && forall k :: 0 <= k < |cells| ==> IsSepCell(cells[k])
  }

  predicate IsTableStart(lines: seq<string>)
    requires lines != []
  {
    '|' in TrimSpace(lines[0]) && |lines| > 1 && IsTableSep(TrimSpace(lines[1]))
  }

  predicate IsFence(line: string) {
    "```" <= TrimSpace(line)
  }

  predicate IsNotFence(line: string) {
    !IsFence(line)
  }

  predicate IsRow(line: string) {
    TrimSpace(line) != "" && '|' in TrimSpace(line)
  }

  predicate IsQuote(line: string) {
    ">" <= TrimSpace(line)
  }

  /** How many lines from the start are of one kind. */
  function Lead(lines: seq<string>, kind: string -> bool): (n: nat)
    ensures n <= |lines| && forall k :: 0 <= k < n ==> kind(lines[k])
    ensures n < |lines| ==> !kind(lines[n])
  {
    if lines == [] || !kind(lines[0]) then 0 else 1 + Lead(lines[1..], kind)
  }

  lemma LeadIs(lines: seq<string>, kind: string -> bool, n: nat)
    requires n <= |lines| && forall k :: 0 <= k < n ==> kind(lines[k])
    requires n < |lines| ==> !kind(lines[n])
    ensures Lead(lines, kind) == n
  {
  }

  function LeadingIndent(line: string): nat {
    RunLength(line, IsIndent)
  }

  function Map<A, B>(xs: seq<A>, f: A -> B): (ys: seq<B>)
    ensures |ys| == |xs| && forall k :: 0 <= k < |xs| ==> ys[k] == f(xs[k])
  {
    seq(|xs|, k requires 0 <= k < |xs| => f(xs[k]))
  }

  function SplitRow(line: string): (cells: seq<string>)
    ensures cells != []
  {
    Map(Split(TrimPipes(TrimSpace(line)), '|'), TrimSpace)
  }

  function Columns(rows: seq<seq<string>>): (n: nat)
    ensures forall k :: 0 <= k < |rows| ==> |rows[k]| <= n
  {
    if rows == [] then 0
    else
      var n := Columns(rows[1..]);
      if |rows[0]| > n then |rows[0]| else n
  }

  function RowOf(row: seq<string>, cols: nat): (cells: Cells)
    ensures |cells| == cols
  {
    seq(cols, c requires 0 <= c < cols => Parse(if c < |row| then row[c] else ""))
  }

  /** Short rows are padded with empty cells to the widest one. */
  function TableOf(rows: seq<seq<string>>): Block {
    Table(Map(rows, row => RowOf(row, Columns(rows))))
  }

  function QuoteText(line: string): string {
    var t := TrimSpace(line);
    TrimSpace(if ">" <= t then t[1..] else t)
  }

  /** The list item a line holds; the check-list form is tried before the bullet. */
  function ListItemOf(line: string): Option<Block> {
    if CheckMatch(line).Some? then
      var (checked, t) := CheckMatch(line).value;
      Some(CheckItem(checked, Parse(t)))
    else if BulletMatch(line).Some? then Some(BulletItem(Parse(BulletMatch(line).value)))
    else if NumberMatch(line).Some? then Some(NumberedItem(Parse(NumberMatch(line).value)))
    else None
  }

  // ----- reading -----

  /** What the parser takes from the front of the remaining lines: a blank line, one more line of
      the pending paragraph, or a block that uses up `size` lines. */
  datatype Taken = Gap | ParaLine(line: string) | Emit(item: Item<Block>, size: nat) {
    function Items(): seq<Item<Block>> {
      if Emit? then [item] else []
    }

    function Size(): nat {
      if Emit? then size else 1
    }
  }

  /** A header row, the delimiter row, and the rows that follow. */
  function TakeTable(lines: seq<string>): (t: Taken)
    requires |lines| >= 2
    ensures t.Emit? && 2 <= t.size <= |lines|
  {
    var n := Lead(lines[2..], IsRow);
    Emit(Root(TableOf([SplitRow(TrimSpace(lines[0]))] + Map(lines[2..][..n], SplitRow))), n + 2)
  }

  /** Consecutive quote lines make one quote. */
  function TakeQuote(lines: seq<string>): (t: Taken)
    requires lines != [] && IsQuote(lines[0])
    ensures t.Emit? && 1 <= t.size <= |lines|
  {
    var n := Lead(lines, IsQuote);
    Emit(Root(Quote(Parse(Join(Map(lines[..n], QuoteText), " ")))), n)
  }

  /** Everything up to the closing fence, or to the end of the text. */
  function TakeCode(lines: seq<string>): (t: Taken)
    requires lines != [] && IsFence(lines[0])
    ensures t.Emit? && 1 <= t.size <= |lines|
  {
    var n := Lead(lines[1..], IsNotFence);
    Emit(Root(CodeBlock(TrimSpace(TrimSpace(lines[0])[3..]), Join(lines[1..][..n], "\n"))),
         if n + 1 < |lines| then n + 2 else n + 1)
  }

  function Take(lines: seq<string>): (t: Taken)
    requires lines != []
    ensures 1 <= t.Size() <= |lines|
  {
    var line := TrimSpace(lines[0]);
    var indent := LeadingIndent(lines[0]);
    if "```" <= line then TakeCode(lines)
    else if line == "" then Gap
    else if HeadingMatch(line).Some? then
      var (level, t) := HeadingMatch(line).value;
      Emit(Root(Heading(if level > 3 then 3 else level, Parse(t))), 1)
    else if IsThematic(line) then Emit(Root(Divider), 1)
    else if IsTableStart(lines) then TakeTable(lines)
    else if ">" <= line then TakeQuote(lines)
    else if ListItemOf(line).Some? then Emit(ListItem(indent, ListItemOf(line).value), 1)
    else ParaLine(line)
  }

  /** A pending paragraph: its lines are joined with a space. */
  function FlushPara(para: seq<string>): seq<Item<Block>> {
    if para == [] then [] else [Root(Paragraph(Parse(Join(para, " "))))]
  }

  function Scan(lines: seq<string>, para: seq<string>): seq<Item<Block>>
    decreases |lines|
  {
    if lines == [] then FlushPara(para)
    else
      var t := Take(lines);
      if t.ParaLine? then Scan(lines[1..], para + [t.line])
      else FlushPara(para) + t.Items() + Scan(lines[t.Size()..], [])
  }

  function Lines(md: string): seq<string> {
    Split(DropCarriageReturns(md), '\n')
  }

  function Read(md: string): Document {
    Forest(Scan(Lines(md), []))
  }

  // ----- printing -----

  function Repeat(c: char, n: nat): (s: string)
    ensures |s| == n && forall k :: 0 <= k < n ==> s[k] == c
  {
    seq(n, _ => c)
  }

  function Decimal(n: nat): (s: string)
    ensures s != "" && forall k :: 0 <= k < |s| ==> IsDigit(s[k])
  {
    (if n < 10 then "" else Decimal(n / 10)) + [(n % 10) as char + '0']
  }

  function Clamp(level: int): int {
    if level < 1 then 1 else if level > 3 then 3 else level
  }

  function PrintRow(cells: seq<string>, indent: string): string {
    indent + "| " + Join(cells, " | ") + " |\n"
  }

  function PrintRows(rows: seq<Cells>, indent: string): string {
    if rows == [] then "" else PrintRow(Map(rows[0], Print), indent) + PrintRows(rows[1..], indent)
  }

  function PrintTable(rows: seq<Cells>, indent: string): string {
    if rows == [] then ""
    else
      var seps := Map(rows[0], _ => "---");
      PrintRow(Map(rows[0], Print), indent) + PrintRow(seps, indent) + PrintRows(rows[1..], indent) + "\n"
  }

  function PrintBlock(b: Block, indent: string, num: nat): string {
    match b
    case Heading(level, c) => indent + Repeat('#', Clamp(level)) + " " + Print(c) + "\n\n"
    case Paragraph(c) => if Print(c) == "" then "" else indent + Print(c) + "\n\n"
    case CodeBlock(language, code) => indent + "```" + language + "\n" + code + "\n```\n\n"
    case BulletItem(c) => indent + "- " + Print(c) + "\n"
    case NumberedItem(c) => indent + Decimal(num) + ". " + Print(c) + "\n"
    case CheckItem(checked, c) => indent + "- [" + (if checked then "x" else " ") + "] " + Print(c) + "\n"
    case Quote(c) => indent + "> " + Print(c) + "\n\n"
    case Table(rows) => PrintTable(rows, indent)
    case Divider => indent + "---\n\n"
  }

  /** `num` counts the numbered items since the last sibling of another kind. */
  function PrintNodes(nodes: Document, depth: nat, num: nat): string {
    if nodes == [] then ""
    else
      var n := if nodes[0].block.NumberedItem? then num + 1 else 0;
      PrintBlock(nodes[0].block, Repeat(' ', 2 * depth), n)
        + PrintNodes(nodes[0].children, depth + 1, 0)
        + PrintNodes(nodes[1..], depth, n)
  }

  function TrimNewlines(s: string): string {
    if s != "" && s[|s| - 1] == '\n' then TrimNewlines(s[..|s| - 1]) else s
  }

  function Write(doc: Document): string {
    TrimNewlines(PrintNodes(doc, 0, 0))
  }
}
