/** Reading undoes writing: every canonical document survives the trip through Markdown. */
module BlockRoundTrip {
  import opened Text
  import opened InlineCodec
  import opened ListNesting
  import opened BlockCodec

  // ----- canonical documents -----

  /** Inline content that prints as one trimmed line. */
  predicate OneLine(c: seq<Inline>) {
    Canonical(c) && Trimmed(Print(c)) && '\n' !in Print(c)
  }

  predicate LineText(c: seq<Inline>) {
    OneLine(c) && Print(c) != ""
  }

  predicate CellText(c: seq<Inline>) {
    OneLine(c) && '|' !in Print(c)
  }

  /** A paragraph line that no earlier rule of the parser would claim. */
  predicate LooksPlain(t: string) {
    && !("```" <= t) && HeadingMatch(t).None? && !IsThematic(t) && !(">" <= t)
    && BulletMatch(t).None? && NumberMatch(t).None?
  }

  predicate CodeLineKept(line: string) {
    !IsFence(line) && !EndsInCR(line)
  }

  predicate CanonicalCode(language: string, code: string) {
    && Trimmed(language) && '\n' !in language
    && forall k :: 0 <= k < |Split(code, '\n')| ==> CodeLineKept(Split(code, '\n')[k])
  }

  predicate CanonicalTable(rows: seq<Cells>) {
    && rows != [] && |rows[0]| >= 2
    && forall r :: 0 <= r < |rows| ==> |rows[r]| == |rows[0]| && forall c :: 0 <= c < |rows[r]| ==> CellText(rows[r][c])
  }

  predicate CanonicalBlock(b: Block) {
    match b
    case Heading(level, c) => 1 <= level <= 3 && LineText(c)
    case Paragraph(c) => LineText(c) && '|' !in Print(c) && LooksPlain(Print(c))
    case CodeBlock(language, code) => CanonicalCode(language, code)
    case Quote(c) => LineText(c) && '|' !in Print(c)
    case Table(rows) => CanonicalTable(rows)
    case Divider => true
    case _ => LineText(b.content) && '|' !in Print(b.content)
  }

  /** Only list items have children, and their children are list items. */
  predicate CanonicalNode(n: Node<Block>) {
    && CanonicalBlock(n.block)
    && (n.children != [] ==> IsListItem(n.block))
    && forall k :: 0 <= k < |n.children| ==> IsListItem(n.children[k].block) && CanonicalNode(n.children[k])
  }

  predicate CanonicalDocument(doc: Document) {
    forall k :: 0 <= k < |doc| ==> CanonicalNode(doc[k])
  }

  // ----- a document as a list of entries and of lines -----

  datatype Entry = Entry(block: Block, depth: nat, num: nat)

  function Flat(nodes: Document, depth: nat, num: nat): seq<Entry> {
    if nodes == [] then []
    else
      var n := if nodes[0].block.NumberedItem? then num + 1 else 0;
      [Entry(nodes[0].block, depth, n)] + Flat(nodes[0].children, depth + 1, 0) + Flat(nodes[1..], depth, n)
  }

  predicate CanonicalEntry(e: Entry) {
    CanonicalBlock(e.block) && (IsListItem(e.block) || e.depth == 0)
  }

  function Tag(e: Entry): Item<Block> {
    if IsListItem(e.block) then ListItem(2 * e.depth, e.block) else Root(e.block)
  }

  function Tags(es: seq<Entry>): seq<Item<Block>> {
    Map(es, Tag)
  }

  function Marker(e: Entry): string
    requires IsListItem(e.block)
  {
    match e.block
    case BulletItem(_) => "- "
    case NumberedItem(_) => Decimal(e.num) + ". "
    case CheckItem(checked, _) => if checked then "- [x] " else "- [ ] "
  }

  function RowLine(cells: seq<string>): string {
    "| " + Join(cells, " | ") + " |"
  }

  function RowLines(rows: seq<Cells>): seq<string> {
    Map(rows, (row: Cells) => RowLine(Map(row, Print)))
  }

  function SepLine(row: Cells): string {
    RowLine(Map(row, _ => "---"))
  }

  /** The lines an entry prints, without the blank line that closes all but list items. */
  function Core(e: Entry): (ls: seq<string>)
    requires CanonicalEntry(e)
    ensures ls != []
  {
    match e.block
    case Heading(level, c) => [Repeat('#', level) + " " + Print(c)]
    case Paragraph(c) => [Print(c)]
    case CodeBlock(language, code) => ["```" + language] + Split(code, '\n') + ["```"]
    case Quote(c) => ["> " + Print(c)]
    case Table(rows) => [RowLine(Map(rows[0], Print)), SepLine(rows[0])] + RowLines(rows[1..])
    case Divider => ["---"]
    case _ => [Repeat(' ', 2 * e.depth) + Marker(e) + Print(e.block.content)]
  }

  function Closing(e: Entry): seq<string> {
    if IsListItem(e.block) then [] else [""]
  }

  ghost predicate CanonicalEntries(es: seq<Entry>) {
    forall k :: 0 <= k < |es| ==> CanonicalEntry(es[k])
  }

  /** All lines of the entries; the last blank line is left out. */
  function EntryLines(es: seq<Entry>): seq<string>
    requires CanonicalEntries(es)
  {
    if es == [] then []
    else if |es| == 1 then Core(es[0])
    else Core(es[0]) + Closing(es[0]) + EntryLines(es[1..])
  }

  // ----- reading the lines of one entry -----

  /** The first `n` lines are read as one item. */
  predicate TakenAs(lines: seq<string>, item: Item<Block>, n: nat) {
    lines != [] && Take(lines) == Emit(item, n)
  }

  lemma TrimmedStays(s: string)
    requires Trimmed(s)
    ensures TrimSpace(s) == s
  {
    TrimPadded("", s, "");
    assert "" + s + "" == s;
  }

  lemma AfterSpace(s: string, n: nat, t: string)
    requires n + 1 <= |s| && s[n] == ' ' && s[n + 1..] == t && t != "" && !IsSpace(t[0])
    ensures DropReSpace(s[n..]) == t
  {
    assert s[n..][1..] == t;
    assert DropReSpace(t) == t;
  }

  lemma HeadingRead(level: int, t: string)
    requires 1 <= level <= 3 && t != "" && !IsSpace(t[0])
    ensures HeadingMatch(Repeat('#', level) + " " + t) == Some((level, t))
  {
    var line := Repeat('#', level) + " " + t;
    assert line[level] == ' ' && line[level + 1..] == t;
    assert RunLength(line, IsHash) == level;
    AfterSpace(line, level, t);
  }

  lemma TakeHeading(level: int, c: seq<Inline>, rest: seq<string>)
    requires 1 <= level <= 3 && LineText(c)
    ensures TakenAs([Repeat('#', level) + " " + Print(c)] + rest, Root(Heading(level, c)), 1)
  {
    var t := Print(c);
    var line := Repeat('#', level) + " " + t;
    assert line[0] == '#';
    assert Trimmed(line) by { assert line[|line| - 1] == t[|t| - 1]; }
    TrimmedStays(line);
    HeadingRead(level, t);
    InlineRoundTrip(c);
  }

  lemma TakeParagraph(c: seq<Inline>, rest: seq<string>)
    requires CanonicalBlock(Paragraph(c))
    ensures Take([Print(c)] + rest) == ParaLine(Print(c))
  {
    TrimmedStays(Print(c));
  }

  lemma TakeDivider(rest: seq<string>)
    ensures TakenAs(["---"] + rest, Root(Divider), 1)
  {
    TrimmedStays("---");
  }

  lemma QuoteRead(t: string)
    requires t != "" && Trimmed(t)
    ensures TrimSpace("> " + t) == "> " + t && QuoteText("> " + t) == t
  {
    var line := "> " + t;
    assert Trimmed(line) by { assert line[|line| - 1] == t[|t| - 1]; }
    TrimmedStays(line);
    assert line[1..] == " " + t + "";
    TrimPadded(" ", t, "");
  }

  lemma QuoteLine(c: seq<Inline>, rest: seq<string>)
    requires LineText(c)
    requires rest == [] || rest[0] == ""
    ensures IsQuote("> " + Print(c))
    ensures BlockCodec.TakeQuote(["> " + Print(c)] + rest) == Emit(Root(Quote(c)), 1)
  {
    var line := "> " + Print(c);
    var lines := [line] + rest;
    QuoteRead(Print(c));
    assert line[0] == '>';
    LeadIs(lines, IsQuote, 1);
    assert lines[..1] == [line];
    assert Map([line], QuoteText) == [Print(c)];
    InlineRoundTrip(c);
  }

  lemma AngleTaken(lines: seq<string>)
    requires lines != [] && TrimSpace(lines[0]) == lines[0] && ">" <= lines[0] && '|' !in lines[0]
    ensures Take(lines) == TakeQuote(lines)
  {
    assert lines[0][0] == '>';
  }

  lemma QuoteTaken(c: seq<Inline>, rest: seq<string>)
    requires CanonicalBlock(Quote(c))
    requires rest == [] || rest[0] == ""
    ensures TakenAs(["> " + Print(c)] + rest, Root(Quote(c)), 1)
  {
    QuoteRead(Print(c));
    QuoteLine(c, rest);
    AngleTaken(["> " + Print(c)] + rest);
  }

  lemma FenceLine(language: string)
    requires Trimmed(language)
    ensures "```" + "" == "```" && IsFence("```" + language)
    ensures TrimSpace(TrimSpace("```" + language)[3..]) == language
  {
    var fence := "```" + language;
    assert Trimmed(fence) by { assert language != "" ==> fence[|fence| - 1] == language[|language| - 1]; }
    TrimmedStays(fence);
    TrimmedStays(language);
    assert fence[3..] == language;
  }

  lemma FenceIsCode(lines: seq<string>)
    requires lines != [] && IsFence(lines[0])
    ensures Take(lines) == TakeCode(lines)
  {
  }

  /** A fenced block takes its lines up to the first fence. */
  lemma BodyTaken(language: string, body: seq<string>, n: nat, rest: seq<string>)
    requires Trimmed(language) && n < |body + rest| && n <= |body|
    requires Lead(body + rest, IsNotFence) == n
    ensures TakeCode(["```" + language] + body + rest) == Emit(Root(CodeBlock(language, Join(body[..n], "\n"))), n + 2)
  {
    FenceLine(language);
    TailOf(["```" + language], body, rest);
    assert (body + rest)[..n] == body[..n];
  }

  lemma BodyLead(body: seq<string>, rest: seq<string>)
    requires forall k :: 0 <= k < |body| ==> !IsFence(body[k])
    ensures Lead(body + (["```"] + rest), IsNotFence) == |body|
  {
    FenceLine("");
    LeadIs(body + (["```"] + rest), IsNotFence, |body|);
  }

  lemma CodeTaken(language: string, code: string, rest: seq<string>)
    requires CanonicalCode(language, code)
    ensures var core := ["```" + language] + Split(code, '\n') + ["```"];
            TakenAs(core + rest, Root(CodeBlock(language, code)), |core|)
  {
    var body := Split(code, '\n');
    FenceLine(language);
    BodyLead(body, rest);
    BodyTaken(language, body, |body|, ["```"] + rest);
    assert body[..|body|] == body;
    JoinSplit(code, '\n');
    Assoc(["```" + language] + body, ["```"], rest);
    FenceIsCode(["```" + language] + body + ["```"] + rest);
  }

  function Padded(cells: seq<string>): seq<string> {
    Map(cells, c => " " + c + " ")
  }

  /** Between the outer pipes a row is its padded cells joined by pipes. */
  lemma {:induction false} RowAsPadded(cells: seq<string>)
    requires cells != []
    ensures " " + Join(cells, " | ") + " " == Join(Padded(cells), "|")
  {
    if |cells| > 1 {
      RowAsPadded(cells[1..]);
      assert Padded(cells)[1..] == Padded(cells[1..]);
    }
  }

  lemma RowRead(cells: seq<string>)
    requires cells != [] && AllFree(cells, '|')
    ensures TrimSpace(RowLine(cells)) == RowLine(cells)
    ensures Split(TrimPipes(RowLine(cells)), '|') == Padded(cells)
  {
    var line := RowLine(cells);
    var inner := " " + Join(cells, " | ") + " ";
    assert line == "|" + inner + "|";
    TrimmedStays(line);
    assert line[1..] == inner + "|";
    assert line[1..][..|inner|] == inner;
    assert TrimPipes(line) == inner;
    RowAsPadded(cells);
    SplitJoin(Padded(cells), '|');
  }

  lemma RowCells(cells: seq<string>)
    requires cells != [] && AllFree(cells, '|')
    requires forall k :: 0 <= k < |cells| ==> Trimmed(cells[k])
    ensures SplitRow(RowLine(cells)) == cells
  {
    RowRead(cells);
    forall k | 0 <= k < |cells| ensures TrimSpace(Padded(cells)[k]) == cells[k] {
      TrimPadded(" ", cells[k], " ");
    }
  }

  lemma SepRead(row: Cells)
    requires |row| >= 2
    ensures IsTableSep(SepLine(row)) && TrimSpace(SepLine(row)) == SepLine(row)
  {
    var seps := Map(row, _ => "---");
    RowRead(seps);
    assert " ---" == " " + "---";
    assert DropReSpace(" --- ") == "--- ";
    assert DropReSpaceEnd("--- ") == "---";
    assert forall k :: 0 <= k < |seps| ==> Padded(seps)[k] == " --- ";
  }

  lemma CellsRead(row: Cells, cols: nat)
    requires |row| == cols >= 1 && forall c :: 0 <= c < |row| ==> CellText(row[c])
    ensures var line := RowLine(Map(row, Print));
            && SplitRow(line) == Map(row, Print) && RowOf(SplitRow(line), cols) == row
            && IsRow(line) && TrimSpace(line) == line && line[0] == '|' && '\n' !in line && line[|line| - 1] == '|'
  {
    var cells := Map(row, Print);
    RowCells(cells);
    RowRead(cells);
    forall c | 0 <= c < cols ensures Parse(cells[c]) == row[c] {
      InlineRoundTrip(row[c]);
    }
    NoNewline(cells, " | ");
  }

  lemma {:induction false} NoNewline(parts: seq<string>, sep: string)
    requires AllFree(parts, '\n') && '\n' !in sep
    ensures '\n' !in Join(parts, sep)
  {
    if |parts| > 1 {
      NoNewline(parts[1..], sep);
    }
  }

  lemma TableOfRows(split: seq<seq<string>>, rows: seq<Cells>, cols: nat)
    requires Columns(split) == cols && |split| == |rows|
    requires forall r :: 0 <= r < |rows| ==> RowOf(split[r], cols) == rows[r]
    ensures TableOf(split) == Table(rows)
  {
  }

  lemma TableRead(rows: seq<Cells>)
    requires CanonicalTable(rows)
    ensures TableOf(Map([RowLine(Map(rows[0], Print))] + RowLines(rows[1..]), SplitRow)) == Table(rows)
  {
    var lines := [RowLine(Map(rows[0], Print))] + RowLines(rows[1..]);
    var split := Map(lines, SplitRow);
    var cols := |rows[0]|;
    forall r | 0 <= r < |rows| ensures |split[r]| == cols && RowOf(split[r], cols) == rows[r] {
      assert lines[r] == RowLine(Map(rows[r], Print));
      CellsRead(rows[r], cols);
    }
    ColumnsAre(split, cols);
    TableOfRows(split, rows, cols);
  }

  lemma {:induction false} ColumnsAre(rows: seq<seq<string>>, cols: nat)
    requires rows != [] && forall r :: 0 <= r < |rows| ==> |rows[r]| == cols
    ensures Columns(rows) == cols
  {
    if |rows| > 1 {
      ColumnsAre(rows[1..], cols);
    }
  }

  lemma RowLead(rows: seq<Cells>, cols: nat, rest: seq<string>)
    requires cols >= 1
    requires forall r :: 0 <= r < |rows| ==> |rows[r]| == cols && forall c :: 0 <= c < cols ==> CellText(rows[r][c])
    requires rest == [] || rest[0] == ""
    ensures Lead(RowLines(rows) + rest, IsRow) == |rows|
  {
    var lines := RowLines(rows) + rest;
    forall k | 0 <= k < |rows| ensures IsRow(lines[k]) {
      CellsRead(rows[k], cols);
    }
    assert !IsRow("");
    LeadIs(lines, IsRow, |rows|);
  }

  lemma TableLinesTaken(head: string, sep: string, tail: seq<string>, rest: seq<string>)
    requires Lead(tail + rest, IsRow) == |tail|
    ensures TakeTable([head, sep] + tail + rest)
         == Emit(Root(TableOf([SplitRow(TrimSpace(head))] + Map(tail, SplitRow))), |tail| + 2)
  {
    TailOf([head, sep], tail, rest);
    assert (tail + rest)[..|tail|] == tail;
  }

  lemma MapCons<A, B>(x: A, xs: seq<A>, f: A -> B)
    ensures [f(x)] + Map(xs, f) == Map([x] + xs, f)
  {
  }

  lemma TailOf<T>(a: seq<T>, b: seq<T>, c: seq<T>)
    ensures (a + b + c)[|a|..] == b + c
  {
  }

  lemma RowsRead(rows: seq<Cells>, head: string, sep: string, rest: seq<string>)
    requires CanonicalTable(rows) && head == RowLine(Map(rows[0], Print)) && TrimSpace(head) == head
    requires rest == [] || rest[0] == ""
    ensures TakeTable([head, sep] + RowLines(rows[1..]) + rest) == Emit(Root(Table(rows)), |rows| + 1)
  {
    var tail := RowLines(rows[1..]);
    RowLead(rows[1..], |rows[0]|, rest);
    TableLinesTaken(head, sep, tail, rest);
    MapCons(head, tail, SplitRow);
    TableRead(rows);
  }

  lemma TableTaken(rows: seq<Cells>, rest: seq<string>)
    requires CanonicalTable(rows)
    requires rest == [] || rest[0] == ""
    ensures TakenAs([RowLine(Map(rows[0], Print)), SepLine(rows[0])] + RowLines(rows[1..]) + rest, Root(Table(rows)), |rows| + 1)
  {
    var head, sep := RowLine(Map(rows[0], Print)), SepLine(rows[0]);
    CellsRead(rows[0], |rows[0]|);
    SepRead(rows[0]);
    RowsRead(rows, head, sep, rest);
    PipeTaken([head, sep] + RowLines(rows[1..]) + rest);
  }

  lemma PipeTaken(lines: seq<string>)
    requires |lines| >= 2 && TrimSpace(lines[0]) == lines[0] && "|" <= lines[0]
    requires IsTableSep(TrimSpace(lines[1]))
    ensures Take(lines) == TakeTable(lines)
  {
    assert lines[0][0] == '|';
  }

  /** A list item's text never looks like a check box: a bracket opens a link. */
  predicate NoBox(t: string) {
    |t| > 3 && t[0] == '[' && t[2] == ']' ==> t[3] == '('
  }

  lemma RunNoBox(text: string, styles: set<Style>, rest: string)
    requires CleanText(text)
    ensures NoBox(StyleWrap(text, styles) + rest)
  {
    assert forall k :: 0 <= k < |text| ==> text[k] !in MARKUP;
    StyleWrapFree(text, styles, '[');
    assert StyleWrap(text, styles) != "";
    assert (StyleWrap(text, styles) + rest)[0] == StyleWrap(text, styles)[0];
  }

  lemma LinkNoBox(caption: string, href: string, rest: string)
    requires ']' !in caption
    ensures NoBox("[" + caption + "](" + href + ")" + rest)
  {
    var t := "[" + caption + "](" + href + ")" + rest;
    assert t[1 + |caption|] == ']' && t[2 + |caption|] == '(';
    if |caption| > 1 {
      assert t[2] == caption[1];
    }
  }

  lemma LinkIsNoBox(c: seq<Inline>)
    requires Canonical(c) && Print(c) != ""
    ensures NoBox(Print(c))
  {
    assert CanonicalItem(c[0]);
    match c[0] {
      case Run(text, styles) => RunNoBox(text, styles, Print(c[1..]));
      case Link(href, content) =>
        LabelFree(content);
        LinkNoBox(Print(content), href, Print(c[1..]));
    }
  }

  lemma BulletRead(t: string)
    requires t != "" && !IsSpace(t[0])
    ensures BulletMatch("- " + t) == Some(t)
  {
    AfterSpace("- " + t, 1, t);
  }

  lemma CheckRead(mark: string, t: string)
    requires mark == "- [ ] " || mark == "- [x] "
    requires t != "" && !IsSpace(t[0])
    ensures CheckMatch(mark + t) == Some((mark[3] == 'x', t))
  {
    var u := mark[2..] + t;
    assert mark + t == "- " + u;
    BulletRead(u);
    AfterSpace(u, 3, t);
  }

  lemma NumberRead(num: nat, t: string)
    requires t != "" && !IsSpace(t[0])
    ensures NumberMatch(Decimal(num) + ". " + t) == Some(t)
  {
    var n := |Decimal(num)|;
    var line := Decimal(num) + ". " + t;
    assert line[n] == '.' && line[n + 1] == ' ' && line[n + 2..] == t;
    assert forall k :: 0 <= k < n ==> line[k] == Decimal(num)[k];
    assert RunLength(line, IsDigit) == n;
    AfterSpace(line, n + 1, t);
  }

  lemma BulletItemRead(t: string)
    requires t != "" && !IsSpace(t[0]) && NoBox(t)
    ensures ListItemOf("- " + t) == Some(BulletItem(Parse(t)))
  {
    BulletRead(t);
  }

  lemma NumberItemRead(num: nat, t: string)
    requires t != "" && !IsSpace(t[0])
    ensures ListItemOf(Decimal(num) + ". " + t) == Some(NumberedItem(Parse(t)))
  {
    NumberRead(num, t);
    assert IsDigit((Decimal(num) + ". " + t)[0]);
  }

  lemma CheckItemRead(checked: bool, t: string)
    requires t != "" && !IsSpace(t[0])
    ensures ListItemOf((if checked then "- [x] " else "- [ ] ") + t) == Some(CheckItem(checked, Parse(t)))
  {
    CheckRead(if checked then "- [x] " else "- [ ] ", t);
  }

  lemma ItemRead(e: Entry)
    requires CanonicalEntry(e) && IsListItem(e.block)
    ensures ListItemOf(Marker(e) + Print(e.block.content)) == Some(e.block)
  {
    var t := Print(e.block.content);
    InlineRoundTrip(e.block.content);
    match e.block {
      case BulletItem(c) =>
        LinkIsNoBox(c);
        BulletItemRead(t);
      case NumberedItem(_) => NumberItemRead(e.num, t);
      case CheckItem(checked, _) => CheckItemRead(checked, t);
    }
  }

  lemma MarkerShape(e: Entry)
    requires IsListItem(e.block)
    ensures var m := Marker(e);
      && |m| >= 2 && !IsSpace(m[0]) && '|' !in m && m[0] !in {'`', '>', '#', '*', '_'}
      && (m[0] == '-' ==> m[1] == ' ')
  {
    if e.block.NumberedItem? {
      assert IsDigit(Decimal(e.num)[0]);
    }
  }

  /** No rule before the list items claims a line that starts like one. */
  lemma ListLineTaken(lines: seq<string>, line: string, b: Block)
    requires lines != [] && TrimSpace(lines[0]) == line && |line| >= 2 && '|' !in line
    requires line[0] !in {'`', '>', '#', '*', '_'} && (line[0] == '-' ==> line[1] == ' ')
    requires ListItemOf(line) == Some(b)
    ensures Take(lines) == Emit(ListItem(LeadingIndent(lines[0]), b), 1)
  {
    assert !IsThematic(line) && HeadingMatch(line).None?;
  }

  lemma IndentedLine(pad: nat, line: string)
    requires Trimmed(line) && line != ""
    ensures TrimSpace(Repeat(' ', pad) + line) == line && LeadingIndent(Repeat(' ', pad) + line) == pad
  {
    var padded := Repeat(' ', pad) + line;
    TrimPadded(Repeat(' ', pad), line, "");
    assert Repeat(' ', pad) + line + "" == padded;
    assert padded[pad] == line[0];
  }

  lemma MarkedLine(m: string, t: string)
    requires |m| >= 2 && !IsSpace(m[0]) && t != "" && Trimmed(t)
    ensures Trimmed(m + t) && (m + t)[0] == m[0] && (m + t)[1] == m[1]
  {
    assert (m + t)[|m + t| - 1] == t[|t| - 1];
  }

  lemma TakeListItem(e: Entry, rest: seq<string>)
    requires CanonicalEntry(e) && IsListItem(e.block)
    ensures TakenAs(Core(e) + rest, Tag(e), 1)
  {
    var t := Print(e.block.content);
    var line := Marker(e) + t;
    MarkerShape(e);
    MarkedLine(Marker(e), t);
    IndentedLine(2 * e.depth, line);
    assert Repeat(' ', 2 * e.depth) + Marker(e) + t == Repeat(' ', 2 * e.depth) + line;
    ItemRead(e);
    ListLineTaken(Core(e) + rest, line, e.block);
  }

  // ----- reading the lines of a whole document -----

  lemma EmitScan(core: seq<string>, item: Item<Block>, rest: seq<string>)
    requires core != [] && TakenAs(core + rest, item, |core|)
    ensures Scan(core + rest, []) == [item] + Scan(rest, [])
  {
    assert (core + rest)[|core|..] == rest;
  }

  lemma EntryTaken(e: Entry, rest: seq<string>)
    requires CanonicalEntry(e) && !e.block.Paragraph?
    requires IsListItem(e.block) || rest == [] || rest[0] == ""
    ensures TakenAs(Core(e) + rest, Tag(e), |Core(e)|)
  {
    match e.block {
      case Heading(level, c) => TakeHeading(level, c, rest);
      case CodeBlock(language, code) => CodeTaken(language, code, rest);
      case Quote(c) => QuoteTaken(c, rest);
      case Table(rows) => TableTaken(rows, rest);
      case Divider => TakeDivider(rest);
      case _ => TakeListItem(e, rest);
    }
  }

  lemma ParaScan(c: seq<Inline>, rest: seq<string>)
    requires CanonicalBlock(Paragraph(c)) && (rest == [] || rest[0] == "")
    ensures Scan([Print(c)] + rest, []) == [Root(Paragraph(c))] + Scan(rest, [])
  {
    TakeParagraph(c, rest);
    assert ([Print(c)] + rest)[1..] == rest;
    ScanPara(c, rest);
  }

  /** The lines of one entry, followed by its blank line or by nothing, are read as that entry. */
  lemma ScanEntry(e: Entry, rest: seq<string>)
    requires CanonicalEntry(e)
    requires IsListItem(e.block) || rest == [] || rest[0] == ""
    ensures Scan(Core(e) + rest, []) == [Tag(e)] + Scan(rest, [])
  {
    if e.block.Paragraph? {
      ParaScan(e.block.content, rest);
    } else {
      EntryTaken(e, rest);
      EmitScan(Core(e), Tag(e), rest);
    }
  }

  lemma GapRead(rest: seq<string>)
    requires rest != [] && rest[0] == ""
    ensures Take(rest) == Gap
  {
    TrimmedStays("");
  }

  lemma ParaFlushed(c: seq<Inline>)
    requires Canonical(c)
    ensures FlushPara([Print(c)]) == [Root(Paragraph(c))]
  {
    InlineRoundTrip(c);
  }

  lemma GapEndsPara(rest: seq<string>, para: seq<string>)
    requires rest != [] && Take(rest) == Gap
    ensures Scan(rest, para) == FlushPara(para) + Scan(rest[1..], [])
  {
    assert FlushPara(para) + [] == FlushPara(para);
  }

  lemma ParaEnds(rest: seq<string>, para: seq<string>)
    requires rest == [] || rest[0] == ""
    ensures Scan(rest, para) == FlushPara(para) + Scan(rest, [])
  {
    if rest != [] {
      GapRead(rest);
      GapEndsPara(rest, para);
      GapEndsPara(rest, []);
      assert FlushPara([]) + Scan(rest[1..], []) == Scan(rest[1..], []);
    }
  }

  lemma ScanPara(c: seq<Inline>, rest: seq<string>)
    requires OneLine(c) && (rest == [] || rest[0] == "")
    ensures Scan(rest, [] + [Print(c)]) == [Root(Paragraph(c))] + Scan(rest, [])
  {
    ParaFlushed(c);
    assert [] + [Print(c)] == [Print(c)];
    ParaEnds(rest, [Print(c)]);
  }

  /** The same, with the blank line read too. */
  lemma ScanClosed(e: Entry, rest: seq<string>)
    requires CanonicalEntry(e)
    ensures Scan(Core(e) + Closing(e) + rest, []) == [Tag(e)] + Scan(rest, [])
  {
    assert Core(e) + Closing(e) + rest == Core(e) + (Closing(e) + rest);
    ScanEntry(e, Closing(e) + rest);
    if IsListItem(e.block) {
      assert Closing(e) + rest == rest;
    } else {
      ScanGap(rest);
    }
  }

  lemma ScanGap(rest: seq<string>)
    ensures Scan([""] + rest, []) == Scan(rest, [])
  {
    GapRead([""] + rest);
    assert ([""] + rest)[1..] == rest;
  }

  lemma {:induction false} ScanEntries(es: seq<Entry>)
    requires CanonicalEntries(es)
    ensures Scan(EntryLines(es), []) == Tags(es)
  {
    if es != [] {
      ScanEntries(es[1..]);
      assert Tags(es) == [Tag(es[0])] + Tags(es[1..]);
      if |es| == 1 {
        assert Core(es[0]) + [] == Core(es[0]);
        ScanEntry(es[0], []);
      } else {
        ScanClosed(es[0], EntryLines(es[1..]));
      }
    }
  }

  // ----- from entries back to the tree -----

  lemma {:induction false} FlatCanonical(nodes: Document, depth: nat, num: nat)
    requires CanonicalDocument(nodes)
    requires depth > 0 ==> forall k :: 0 <= k < |nodes| ==> IsListItem(nodes[k].block)
    ensures CanonicalEntries(Flat(nodes, depth, num))
    ensures forall k :: 0 <= k < |Flat(nodes, depth, num)| ==>
              var e := Flat(nodes, depth, num)[k];
              e.depth >= depth && (depth > 0 ==> IsListItem(e.block))
    ensures nodes != [] ==> Flat(nodes, depth, num) != [] && Flat(nodes, depth, num)[0].depth == depth
    decreases nodes
  {
    if nodes != [] {
      var n := if nodes[0].block.NumberedItem? then num + 1 else 0;
      assert CanonicalNode(nodes[0]);
      FlatCanonical(nodes[0].children, depth + 1, 0);
      FlatCanonical(nodes[1..], depth, n);
    }
  }

  lemma {:induction false} BelowIs<T>(item: Item<T>, inner: seq<Item<T>>, rest: seq<Item<T>>)
    requires item.Root? ==> inner == []
    requires item.ListItem? ==> forall k :: 0 <= k < |inner| ==> inner[k].ListItem? && inner[k].indent > item.indent
    requires item.ListItem? && rest != [] ==> rest[0].Root? || rest[0].indent <= item.indent
    ensures Below(item, inner + rest) == |inner|
  {
    assert forall k :: 0 <= k < |inner| ==> (inner + rest)[k] == inner[k];
    assert rest != [] ==> (inner + rest)[|inner|] == rest[0];
  }

  lemma ForestStep<T>(item: Item<T>, inner: seq<Item<T>>, rest: seq<Item<T>>)
    requires item.Root? ==> inner == []
    requires item.ListItem? ==> forall k :: 0 <= k < |inner| ==> inner[k].ListItem? && inner[k].indent > item.indent
    requires item.ListItem? && rest != [] ==> rest[0].Root? || rest[0].indent <= item.indent
    ensures Forest([item] + inner + rest) == [Node(item.block, Forest(inner))] + Forest(rest)
  {
    BelowIs(item, inner, rest);
    ForestUnfold(item, inner + rest);
    Assoc([item], inner, rest);
    assert (inner + rest)[..|inner|] == inner && (inner + rest)[|inner|..] == rest;
  }

  lemma TagsOfThree(e: Entry, inner: seq<Entry>, rest: seq<Entry>)
    ensures Tags([e] + inner + rest) == [Tag(e)] + Tags(inner) + Tags(rest)
  {
  }

  lemma FlatDepths(head: Node<Block>, rest: Document, depth: nat, num: nat)
    requires CanonicalNode(head) && CanonicalDocument(rest)
    requires depth > 0 ==> forall k :: 0 <= k < |rest| ==> IsListItem(rest[k].block)
    ensures var inner := Tags(Flat(head.children, depth + 1, 0));
            forall k :: 0 <= k < |inner| ==> inner[k].ListItem? && inner[k].indent > 2 * depth
    ensures var after := Tags(Flat(rest, depth, num));
            after != [] ==> after[0].Root? || after[0].indent <= 2 * depth
  {
    FlatCanonical(head.children, depth + 1, 0);
    FlatCanonical(rest, depth, num);
  }

  lemma ForestOfThree(e: Entry, inner: seq<Entry>, rest: seq<Entry>)
    requires !IsListItem(e.block) ==> inner == []
    requires forall k :: 0 <= k < |Tags(inner)| ==> Tags(inner)[k].ListItem? && Tags(inner)[k].indent > 2 * e.depth
    requires rest != [] ==> Tags(rest)[0].Root? || Tags(rest)[0].indent <= 2 * e.depth
    ensures Forest(Tags([e] + inner + rest)) == [Node(e.block, Forest(Tags(inner)))] + Forest(Tags(rest))
  {
    TagsOfThree(e, inner, rest);
    ForestStep(Tag(e), Tags(inner), Tags(rest));
  }

  lemma ChildrenCanonical(n: Node<Block>)
    requires CanonicalNode(n)
    ensures CanonicalDocument(n.children) && forall k :: 0 <= k < |n.children| ==> IsListItem(n.children[k].block)
    ensures !IsListItem(n.block) ==> n.children == []
  {
  }

  lemma FlatNode(nodes: Document, depth: nat, num: nat, n: nat)
    requires nodes != [] && n == if nodes[0].block.NumberedItem? then num + 1 else 0
    ensures Flat(nodes, depth, num)
         == [Entry(nodes[0].block, depth, n)] + Flat(nodes[0].children, depth + 1, 0) + Flat(nodes[1..], depth, n)
  {
  }

  /** Nesting by indentation undoes flattening. */
  lemma {:induction false} ForestFlat(nodes: Document, depth: nat, num: nat)
    requires CanonicalDocument(nodes)
    requires depth > 0 ==> forall k :: 0 <= k < |nodes| ==> IsListItem(nodes[k].block)
    ensures Forest(Tags(Flat(nodes, depth, num))) == nodes
    decreases nodes
  {
    if nodes != [] {
      var head := nodes[0];
      assert CanonicalNode(head);
      var n := if head.block.NumberedItem? then num + 1 else 0;
      ChildrenCanonical(head);
      FlatNode(nodes, depth, num, n);
      FlatDepths(head, nodes[1..], depth, n);
      ForestFlat(head.children, depth + 1, 0);
      ForestFlat(nodes[1..], depth, n);
      ForestOfThree(Entry(head.block, depth, n), Flat(head.children, depth + 1, 0), Flat(nodes[1..], depth, n));
      assert nodes == [Node(head.block, head.children)] + nodes[1..];
    }
  }

  // ----- from the printed text to the lines -----

  function Unlines(ls: seq<string>): string {
    if ls == [] then "" else ls[0] + "\n" + Unlines(ls[1..])
  }

  lemma {:induction false} UnlinesAppend(a: seq<string>, b: seq<string>)
    ensures Unlines(a + b) == Unlines(a) + Unlines(b)
  {
    if a == [] {
      assert a + b == b;
    } else {
      assert (a + b)[1..] == a[1..] + b;
      UnlinesAppend(a[1..], b);
    }
  }

  lemma {:induction false} UnlinesJoin(ls: seq<string>)
    requires ls != []
    ensures Unlines(ls) == Join(ls, "\n") + "\n"
  {
    if |ls| > 1 {
      UnlinesJoin(ls[1..]);
    }
  }

  lemma {:induction false} RowsPrinted(rows: seq<Cells>)
    ensures PrintRows(rows, "") == Unlines(RowLines(rows))
  {
    if rows != [] {
      RowsPrinted(rows[1..]);
      assert RowLines(rows)[1..] == RowLines(rows[1..]);
      RowPrinted(Map(rows[0], Print));
    }
  }

  lemma RowPrinted(cells: seq<string>)
    ensures PrintRow(cells, "") == RowLine(cells) + "\n"
  {
  }

  lemma FencedPrinted(fence: string, body: seq<string>)
    requires body != []
    ensures Unlines([fence] + body + ["```"]) == fence + "\n" + Join(body, "\n") + "\n```\n"
  {
    UnlinesAppend([fence] + body, ["```"]);
    UnlinesAppend([fence], body);
    UnlinesJoin(body);
  }

  lemma CodePrinted(language: string, code: string)
    ensures Unlines(["```" + language] + Split(code, '\n') + ["```"]) == "```" + language + "\n" + code + "\n```\n"
  {
    JoinSplit(code, '\n');
    FencedPrinted("```" + language, Split(code, '\n'));
  }

  lemma TablePrinted(rows: seq<Cells>)
    requires rows != []
    ensures PrintTable(rows, "")
         == Unlines([RowLine(Map(rows[0], Print)), SepLine(rows[0])] + RowLines(rows[1..])) + "\n"
  {
    var head, sep := Map(rows[0], Print), Map(rows[0], _ => "---");
    UnlinesAppend([RowLine(head), RowLine(sep)], RowLines(rows[1..]));
    RowsPrinted(rows[1..]);
    RowPrinted(head);
    RowPrinted(sep);
    assert Unlines([RowLine(head), RowLine(sep)]) == RowLine(head) + "\n" + (RowLine(sep) + "\n");
  }

  lemma OneLinePrinted(line: string, closing: seq<string>)
    ensures Unlines([line] + closing) == line + "\n" + Unlines(closing)
    ensures Unlines([""]) == "\n"
  {
    UnlinesAppend([line], closing);
  }

  lemma ItemPrinted(e: Entry)
    requires CanonicalEntry(e) && IsListItem(e.block)
    ensures PrintBlock(e.block, Repeat(' ', 2 * e.depth), e.num) == Core(e)[0] + "\n"
  {
    var pad, t := Repeat(' ', 2 * e.depth), Print(e.block.content);
    match e.block {
      case BulletItem(_) =>
      case NumberedItem(_) =>
        assert pad + Decimal(e.num) + ". " + t == pad + (Decimal(e.num) + ". ") + t;
      case CheckItem(checked, _) =>
        assert pad + "- [" + (if checked then "x" else " ") + "] " == pad + Marker(e);
    }
  }

  lemma RootPrinted(e: Entry)
    requires CanonicalEntry(e) && !IsListItem(e.block) && !e.block.CodeBlock? && !e.block.Table?
    ensures |Core(e)| == 1 && PrintBlock(e.block, "", e.num) == Core(e)[0] + "\n" + "\n"
  {
    match e.block {
      case Heading(level, c) => assert "" + Repeat('#', level) == Repeat('#', level);
      case Paragraph(c) => assert "" + Print(c) == Print(c);
      case Quote(c) => assert "" + "> " == "> ";
      case Divider => assert "" + "---\n\n" == "---" + "\n" + "\n";
    }
  }

  lemma LinePrinted(e: Entry)
    requires CanonicalEntry(e) && !e.block.CodeBlock? && !e.block.Table?
    ensures |Core(e)| == 1
    ensures PrintBlock(e.block, Repeat(' ', 2 * e.depth), e.num) == Core(e)[0] + "\n" + Unlines(Closing(e))
  {
    if IsListItem(e.block) {
      ItemPrinted(e);
    } else {
      assert Repeat(' ', 2 * e.depth) == "";
      RootPrinted(e);
      OneLinePrinted("", []);
    }
  }

  lemma BlockPrinted(e: Entry)
    requires CanonicalEntry(e)
    ensures PrintBlock(e.block, Repeat(' ', 2 * e.depth), e.num) == Unlines(Core(e) + Closing(e))
  {
    UnlinesAppend(Core(e), Closing(e));
    if e.block.CodeBlock? {
      CodePrinted(e.block.language, e.block.code);
      assert Repeat(' ', 2 * e.depth) == "" && Unlines(Closing(e)) == "\n";
    } else if e.block.Table? {
      TablePrinted(e.block.rows);
      assert Repeat(' ', 2 * e.depth) == "" && Unlines(Closing(e)) == "\n";
    } else {
      LinePrinted(e);
      OneLinePrinted(Core(e)[0], Closing(e));
    }
  }

  function AllLines(es: seq<Entry>): seq<string>
    requires CanonicalEntries(es)
  {
    if es == [] then [] else Core(es[0]) + Closing(es[0]) + AllLines(es[1..])
  }

  lemma {:induction false} AllLinesAppend(a: seq<Entry>, b: seq<Entry>)
    requires CanonicalEntries(a) && CanonicalEntries(b) && CanonicalEntries(a + b)
    ensures AllLines(a + b) == AllLines(a) + AllLines(b)
  {
    if a == [] {
      assert a + b == b;
    } else {
      assert (a + b)[1..] == a[1..] + b;
      AllLinesAppend(a[1..], b);
    }
  }

  lemma {:induction false} NodesPrinted(nodes: Document, depth: nat, num: nat)
    requires CanonicalDocument(nodes) && CanonicalEntries(Flat(nodes, depth, num))
    requires depth > 0 ==> forall k :: 0 <= k < |nodes| ==> IsListItem(nodes[k].block)
    ensures PrintNodes(nodes, depth, num) == Unlines(AllLines(Flat(nodes, depth, num)))
    decreases nodes
  {
    if nodes != [] {
      var head := nodes[0];
      var n := if head.block.NumberedItem? then num + 1 else 0;
      var e, inner, rest := Entry(head.block, depth, n), Flat(head.children, depth + 1, 0), Flat(nodes[1..], depth, n);
      assert CanonicalNode(head);
      FlatCanonical(head.children, depth + 1, 0);
      FlatCanonical(nodes[1..], depth, n);
      NodesPrinted(head.children, depth + 1, 0);
      NodesPrinted(nodes[1..], depth, n);
      assert CanonicalEntries([e] + inner + rest);
      PrintedThree(e, inner, rest);
    }
  }

  lemma AllLinesCons(e: Entry, es: seq<Entry>)
    requires CanonicalEntry(e) && CanonicalEntries(es) && CanonicalEntries([e] + es)
    ensures AllLines([e] + es) == Core(e) + Closing(e) + AllLines(es)
  {
    assert ([e] + es)[1..] == es;
  }

  lemma LinesOfThree(e: Entry, inner: seq<Entry>, rest: seq<Entry>)
    requires CanonicalEntry(e) && CanonicalEntries(inner) && CanonicalEntries(rest)
    requires CanonicalEntries([e] + inner + rest)
    ensures AllLines([e] + inner + rest) == Core(e) + Closing(e) + (AllLines(inner) + AllLines(rest))
  {
    assert [e] + inner + rest == [e] + (inner + rest);
    AllLinesCons(e, inner + rest);
    AllLinesAppend(inner, rest);
  }

  lemma PrintedThree(e: Entry, inner: seq<Entry>, rest: seq<Entry>)
    requires CanonicalEntry(e) && CanonicalEntries(inner) && CanonicalEntries(rest)
    requires CanonicalEntries([e] + inner + rest)
    ensures Unlines(AllLines([e] + inner + rest))
         == PrintBlock(e.block, Repeat(' ', 2 * e.depth), e.num) + Unlines(AllLines(inner)) + Unlines(AllLines(rest))
  {
    LinesOfThree(e, inner, rest);
    BlockPrinted(e);
    UnlinesThree(Core(e) + Closing(e), AllLines(inner), AllLines(rest));
  }

  lemma UnlinesThree(a: seq<string>, b: seq<string>, c: seq<string>)
    ensures Unlines(a + (b + c)) == Unlines(a) + Unlines(b) + Unlines(c)
  {
    UnlinesAppend(a, b + c);
    UnlinesAppend(b, c);
  }

  /** A line of the output: within one line, and safe from the CRLF replacement. */
  predicate GoodLine(l: string) {
    '\n' !in l && !EndsInCR(l)
  }

  ghost predicate GoodLines(ls: seq<string>) {
    forall k :: 0 <= k < |ls| ==> GoodLine(ls[k])
  }

  lemma TextLine(prefix: string, c: seq<Inline>)
    requires LineText(c) && '\n' !in prefix
    ensures GoodLine(prefix + Print(c)) && prefix + Print(c) != ""
  {
    var line := prefix + Print(c);
    assert line[|line| - 1] == Print(c)[|Print(c)| - 1];
  }

  lemma {:induction false} DecimalLine(n: nat)
    ensures '\n' !in Decimal(n)
  {
    assert forall k :: 0 <= k < |Decimal(n)| ==> IsDigit(Decimal(n)[k]);
  }

  lemma TableLines(rows: seq<Cells>)
    requires CanonicalTable(rows)
    ensures GoodLine(RowLine(Map(rows[0], Print))) && GoodLine(SepLine(rows[0])) && GoodLines(RowLines(rows[1..]))
    ensures forall k :: 0 <= k < |RowLines(rows[1..])| ==> RowLines(rows[1..])[k] != ""
  {
    forall r | 0 <= r < |rows| ensures GoodLine(RowLine(Map(rows[r], Print))) {
      CellsRead(rows[r], |rows[0]|);
    }
    var seps := Map(rows[0], _ => "---");
    NoNewline(seps, " | ");
  }

  ghost predicate GoodText(ls: seq<string>) {
    ls != [] && GoodLines(ls) && ls[|ls| - 1] != ""
  }

  lemma TextCore(prefix: string, c: seq<Inline>)
    requires LineText(c) && '\n' !in prefix
    ensures GoodText([prefix + Print(c)])
  {
    TextLine(prefix, c);
  }

  lemma ItemLine(e: Entry)
    requires CanonicalEntry(e) && IsListItem(e.block)
    ensures GoodText(Core(e))
  {
    DecimalLine(e.num);
    TextCore(Repeat(' ', 2 * e.depth) + Marker(e), e.block.content);
  }

  lemma CodeLines(language: string, code: string)
    requires CanonicalCode(language, code)
    ensures GoodText(["```" + language] + Split(code, '\n') + ["```"])
  {
    JoinSplit(code, '\n');
    var fence := "```" + language;
    assert language != "" ==> fence[|fence| - 1] == language[|language| - 1];
  }

  lemma TableText(rows: seq<Cells>)
    requires CanonicalTable(rows)
    ensures GoodText([RowLine(Map(rows[0], Print)), SepLine(rows[0])] + RowLines(rows[1..]))
  {
    TableLines(rows);
    assert SepLine(rows[0]) != "";
  }

  lemma CoreLines(e: Entry)
    requires CanonicalEntry(e)
    ensures GoodText(Core(e))
  {
    match e.block {
      case Heading(level, c) => TextCore(Repeat('#', level) + " ", c);
      case Paragraph(c) => TextCore("", c); assert "" + Print(c) == Print(c);
      case CodeBlock(language, code) => CodeLines(language, code);
      case Quote(c) => TextCore("> ", c);
      case Table(rows) => TableText(rows);
      case Divider =>
      case _ => ItemLine(e);
    }
  }

  lemma GoodTextAfter(ls: seq<string>, more: seq<string>)
    requires GoodLines(ls) && GoodText(more)
    ensures GoodText(ls + more)
  {
  }

  lemma {:induction false} EntryLinesGood(es: seq<Entry>)
    requires CanonicalEntries(es) && es != []
    ensures GoodText(EntryLines(es))
  {
    CoreLines(es[0]);
    if |es| > 1 {
      EntryLinesGood(es[1..]);
      GoodTextAfter(Core(es[0]) + Closing(es[0]), EntryLines(es[1..]));
    }
  }

  lemma {:induction false} LastClosing(es: seq<Entry>)
    requires CanonicalEntries(es) && es != []
    ensures AllLines(es) == EntryLines(es) + Closing(es[|es| - 1])
  {
    if |es| == 1 {
      assert AllLines(es[1..]) == [];
    } else {
      var first, rest, last := Core(es[0]) + Closing(es[0]), es[1..], Closing(es[|es| - 1]);
      LastClosing(rest);
      assert rest[|rest| - 1] == es[|es| - 1];
      assert AllLines(es) == first + AllLines(rest);
      Assoc(first, EntryLines(rest), last);
    }
  }

  lemma {:induction false} JoinEnds(ls: seq<string>)
    requires ls != [] && ls[|ls| - 1] != "" && '\n' !in ls[|ls| - 1]
    ensures var s := Join(ls, "\n"); s != "" && s[|s| - 1] != '\n'
  {
    if |ls| > 1 {
      JoinEnds(ls[1..]);
    }
  }

  lemma NewlinesTrimmed(s: string)
    requires s != "" && s[|s| - 1] != '\n'
    ensures TrimNewlines(s + "\n") == s && TrimNewlines(s + "\n" + "\n") == s
  {
    assert (s + "\n")[..|s|] == s;
    assert (s + "\n" + "\n")[..|s| + 1] == s + "\n";
    assert TrimNewlines(s) == s;
  }

  lemma TrimmedUnlines(ls: seq<string>, closing: seq<string>)
    requires GoodText(ls) && (closing == [] || closing == [""])
    ensures TrimNewlines(Unlines(ls + closing)) == Join(ls, "\n")
  {
    UnlinesAppend(ls, closing);
    UnlinesJoin(ls);
    JoinEnds(ls);
    NewlinesTrimmed(Join(ls, "\n"));
    OneLinePrinted("", []);
    assert Unlines([]) == "";
    assert Join(ls, "\n") + "\n" + "" == Join(ls, "\n") + "\n";
  }

  /** What is written is the entries' lines, joined. */
  lemma WriteIsLines(doc: Document)
    requires CanonicalDocument(doc) && doc != []
    ensures var es := Flat(doc, 0, 0); es != [] && CanonicalEntries(es) && Write(doc) == Join(EntryLines(es), "\n")
  {
    var es := Flat(doc, 0, 0);
    FlatCanonical(doc, 0, 0);
    NodesPrinted(doc, 0, 0);
    EntryLinesGood(es);
    LastClosing(es);
    TrimmedUnlines(EntryLines(es), Closing(es[|es| - 1]));
  }

  lemma LinesOfJoin(ls: seq<string>)
    requires ls != [] && GoodLines(ls)
    ensures Lines(Join(ls, "\n")) == ls
  {
    ChompJoin(ls);
    forall k | 0 <= k < |ls| ensures Chomped(ls)[k] == ls[k] {
      ChompedAt(ls, k);
    }
    assert Chomped(ls) == ls;
    SplitJoin(ls, '\n');
  }

  /** Block round trip: reading undoes writing on every canonical document. */
  lemma RoundTrip(doc: Document)
    requires CanonicalDocument(doc)
    ensures Read(Write(doc)) == doc
  {
    if doc == [] {
      ScanGap([]);
      assert [""] + [] == [""];
    } else {
      var es := Flat(doc, 0, 0);
      WriteIsLines(doc);
      EntryLinesGood(es);
      LinesOfJoin(EntryLines(es));
      ScanEntries(es);
      ForestFlat(doc, 0, 0);
    }
  }

  // ----- code blocks: exactly which ones survive -----

  /** The length of joined lines, each counted with its newline. */
  function Extent(ls: seq<string>): nat {
    if ls == [] then 0 else |ls[0]| + 1 + Extent(ls[1..])
  }

  lemma {:induction false} ExtentJoin(ls: seq<string>)
    requires ls != []
    ensures |Join(ls, "\n")| == Extent(ls) - 1
  {
    if |ls| > 1 {
      ExtentJoin(ls[1..]);
    }
  }

  /** Dropping carriage returns, or lines at the end, makes a text shorter unless it drops nothing. */
  lemma {:induction false} ExtentShrinks(body: seq<string>, chomped: seq<string>, n: nat)
    requires |chomped| == |body| && n <= |body|
    requires forall k :: 0 <= k < |body| ==> chomped[k] == Chomp(body[k])
    ensures Extent(chomped[..n]) <= Extent(body)
    ensures Extent(chomped[..n]) == Extent(body) ==> n == |body| && forall k :: 0 <= k < |body| ==> !EndsInCR(body[k])
  {
    if n > 0 {
      ExtentShrinks(body[1..], chomped[1..], n - 1);
      assert chomped[..n][1..] == chomped[1..][..n - 1];
      assert chomped[..n][0] == Chomp(body[0]);
      if Extent(chomped[..n]) == Extent(body) {
        forall k | 0 <= k < |body| ensures !EndsInCR(body[k]) {
          assert k > 0 ==> body[k] == body[1..][k - 1];
        }
      }
    }
  }

  /** What is read back from a fenced block: its chomped lines up to the first one that is a fence. */
  lemma CodeReadBack(language: string, code: string, chomped: seq<string>)
    requires Trimmed(language) && '\n' !in language
    requires |chomped| == |Split(code, '\n')|
    requires forall k :: 0 <= k < |chomped| ==> chomped[k] == Chomp(Split(code, '\n')[k])
    ensures var n := Lead(chomped + ["```"], IsNotFence);
            && n <= |chomped|
            && var got := Read(Write([Node(CodeBlock(language, code), [])]));
            got != [] && got[0].block == CodeBlock(language, Join(chomped[..n], "\n"))
  {
    var fence := "```" + language;
    var body := Split(code, '\n');
    CodeWritten(language, code);
    JoinSplit(code, '\n');
    assert !EndsInCR(fence) by { assert language != "" ==> fence[|fence| - 1] == language[|language| - 1]; }
    FencedLines(fence, body, chomped);
    CodeTakenAt(language, chomped);
  }

  /** The lines of a fenced block lose their carriage returns on the way. */
  lemma FencedLines(fence: string, body: seq<string>, chomped: seq<string>)
    requires '\n' !in fence && !EndsInCR(fence) && AllFree(body, '\n') && |chomped| == |body|
    requires forall k :: 0 <= k < |chomped| ==> chomped[k] == Chomp(body[k])
    ensures Lines(Join([fence] + body + ["```"], "\n")) == [fence] + chomped + ["```"]
  {
    var ls := [fence] + body + ["```"];
    ChompJoin(ls);
    forall k | 0 <= k < |ls| ensures Chomped(ls)[k] == ([fence] + chomped + ["```"])[k] {
      ChompedAt(ls, k);
    }
    assert Chomped(ls) == [fence] + chomped + ["```"];
    SplitJoin(Chomped(ls), '\n');
  }

  lemma CodeNodePrinted(language: string, code: string)
    ensures PrintNodes([Node(CodeBlock(language, code), [])], 0, 0) == "```" + language + "\n" + code + "\n```" + "\n" + "\n"
  {
    var doc := [Node(CodeBlock(language, code), [])];
    assert Repeat(' ', 0) == "";
    assert PrintNodes(doc[0].children, 1, 0) == "" && PrintNodes(doc[1..], 0, 0) == "";
  }

  lemma SameBeforeNewline(a: string, b: string)
    requires a + "\n" == b + "\n"
    ensures a == b
  {
    assert (a + "\n")[..|a|] == a && (b + "\n")[..|b|] == b;
  }

  lemma CodeWritten(language: string, code: string)
    ensures Write([Node(CodeBlock(language, code), [])])
         == Join(["```" + language] + Split(code, '\n') + ["```"], "\n")
  {
    var text := "```" + language + "\n" + code + "\n```";
    var ls := ["```" + language] + Split(code, '\n') + ["```"];
    CodeNodePrinted(language, code);
    NewlinesTrimmed(text);
    CodePrinted(language, code);
    UnlinesJoin(ls);
    SameBeforeNewline(Join(ls, "\n"), text);
  }

  lemma FenceTaken(language: string, chomped: seq<string>)
    requires Trimmed(language)
    ensures var n := Lead(chomped + ["```"], IsNotFence);
            && n <= |chomped|
            && var t := Take(["```" + language] + chomped + ["```"]);
            t.Emit? && t.item == Root(CodeBlock(language, Join(chomped[..n], "\n")))
  {
    FenceLine(language);
    FenceLine("");
    assert (chomped + ["```"])[|chomped|] == "```";
    BodyTaken(language, chomped, Lead(chomped + ["```"], IsNotFence), ["```"]);
    FenceIsCode(["```" + language] + chomped + ["```"]);
  }

  lemma ScanFirst(lines: seq<string>, item: Item<Block>)
    requires lines != [] && Take(lines).Emit? && Take(lines).item == item
    ensures Scan(lines, []) == [item] + Scan(lines[Take(lines).size..], [])
  {
    assert FlushPara([]) + [item] == [item];
  }

  lemma FirstBlock(lines: seq<string>, b: Block)
    requires lines != [] && Take(lines).Emit? && Take(lines).item == Root(b)
    ensures var got := Forest(Scan(lines, [])); got != [] && got[0].block == b
  {
    var rest := Scan(lines[Take(lines).size..], []);
    ScanFirst(lines, Root(b));
    ForestUnfold(Root(b), rest);
  }

  lemma CodeTakenAt(language: string, chomped: seq<string>)
    requires Trimmed(language)
    ensures var n := Lead(chomped + ["```"], IsNotFence);
            && n <= |chomped|
            && var got := Forest(Scan(["```" + language] + chomped + ["```"], []));
            got != [] && got[0].block == CodeBlock(language, Join(chomped[..n], "\n"))
  {
    var n := Lead(chomped + ["```"], IsNotFence);
    FenceTaken(language, chomped);
    FirstBlock(["```" + language] + chomped + ["```"], CodeBlock(language, Join(chomped[..n], "\n")));
  }

  /** A code block survives exactly when no line of it opens like a fence or ends in a carriage
      return. The second condition is easily missed: the reader turns CRLF into LF everywhere. */
  lemma CodeRoundTripExact(language: string, code: string)
    requires Trimmed(language) && '\n' !in language
    ensures var doc := [Node(CodeBlock(language, code), [])];
            Read(Write(doc)) == doc <==> forall k :: 0 <= k < |Split(code, '\n')| ==> CodeLineKept(Split(code, '\n')[k])
  {
    var doc := [Node(CodeBlock(language, code), [])];
    var body := Split(code, '\n');
    if Read(Write(doc)) == doc {
      var chomped := Map(body, Chomp);
      var n := Lead(chomped + ["```"], IsNotFence);
      CodeReadBack(language, code, chomped);
      ExtentShrinks(body, chomped, n);
      JoinSplit(code, '\n');
      ExtentJoin(body);
      CodeExtents(code, body, chomped, n);
      forall k | 0 <= k < |body| ensures CodeLineKept(body[k]) {
        assert (chomped + ["```"])[k] == body[k];
      }
    } else if CanonicalCode(language, code) {
      assert CanonicalNode(doc[0]);
      RoundTrip(doc);
    }
  }

  lemma CodeExtents(code: string, body: seq<string>, chomped: seq<string>, n: nat)
    requires body != [] && |chomped| == |body| && n <= |body|
    requires n < |body| ==> IsFence(chomped[n])
    requires forall k :: 0 <= k < |body| ==> chomped[k] == Chomp(body[k])
    requires Join(chomped[..n], "\n") == code == Join(body, "\n")
    ensures Extent(chomped[..n]) == Extent(body)
  {
    ExtentJoin(body);
    if n > 0 {
      ExtentJoin(chomped[..n]);
    } else {
      TrimmedStays("");
    }
  }

  /** CRLF inside a code block is lost. */
  lemma CarriageReturnLost()
    ensures Read(Write([Node(CodeBlock("", "a\r\nb"), [])])) != [Node(CodeBlock("", "a\r\nb"), [])]
  {
    SplitHead("a\r", '\n', "b");
    assert "a\r" + ['\n'] + "b" == "a\r\nb";
    assert Split("a\r\nb", '\n')[0] == "a\r";
    CodeRoundTripExact("", "a\r\nb");
  }
}
