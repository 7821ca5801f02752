/** What Markdown written by hand is read as (internal/blocknote/blocknote.go): the ways of writing a block
    that the reader accepts, not only the printer's, and the block each stands for. */
module AuthoredMarkdown {
  import opened Text
  import opened InlineCodec
  import opened ListNesting
  import opened BlockCodec
  import opened BlockRoundTrip
  import opened AuthoredInline

  // ----- how blocks may be written -----

  /** A trimmed text between white space. */
  datatype Spaced = Spaced(left: string, text: string, right: string)

  function Raw(s: Spaced): string {
    s.left + s.text + s.right
  }

  /** What opens a heading or a list item. */
  datatype Mark = Hashes(level: nat) | Dot(sign: char) | Box(sign: char, gap: string, tick: char) | Digits(digits: string)

  datatype Written =
    | BlankLine(space: string)
    | TextLines(lines: seq<Spaced>)
    | Marked(left: string, mark: Mark, gap: string, text: string, right: string)
    | QuoteLines(left: string, texts: seq<Spaced>)
    | Rule(left: string, sign: char, length: nat, right: string)
    | Fenced(language: string, body: seq<string>, closed: bool)
    | Grid(head: GridRow, aligns: GridRow, rows: seq<GridRow>)

  /** A row of a table, with or without the outer pipes. */
  datatype GridRow = GridRow(left: string, opening: bool, cells: seq<Spaced>, closing: bool, right: string)

  /** The row between its white space. */
  function GridCore(r: GridRow): string {
    (if r.opening then "|" else "") + Join(Map(r.cells, Raw), "|") + (if r.closing then "|" else "")
  }

  function GridRaw(r: GridRow): string {
    r.left + GridCore(r) + r.right
  }

  function Prefix(m: Mark): string {
    match m
    case Hashes(level) => Repeat('#', level)
    case Dot(sign) => [sign]
    case Box(sign, gap, tick) => [sign] + gap + ("[" + [tick] + "]")
    case Digits(digits) => digits + "."
  }

  function QuoteRaw(left: string, s: Spaced): string {
    left + ">" + Raw(s)
  }

  /** The lines as they are typed. */
  function RawLines(w: Written): seq<string> {
    match w
    case BlankLine(space) => [space]
    case TextLines(lines) => Map(lines, Raw)
    case Marked(left, mark, gap, text, right) => [left + (Prefix(mark) + gap + text) + right]
    case QuoteLines(left, texts) => Map(texts, s => QuoteRaw(left, s))
    case Rule(left, sign, length, right) => [left + Repeat(sign, length) + right]
    case Fenced(language, body, closed) => ["```" + language] + body + if closed then ["```"] else []
    case Grid(head, aligns, rows) => [GridRaw(head), GridRaw(aligns)] + Map(rows, GridRaw)
  }

  // ----- when they are well written -----

  predicate IsGap(s: string) {
    s != "" && forall k :: 0 <= k < |s| ==> s[k] in {' ', '\t', '\r', '\U{000C}'}
  }

  predicate IsIndentation(s: string) {
    forall k :: 0 <= k < |s| ==> s[k] == ' ' || s[k] == '\t'
  }

  predicate SpacedWell(s: Spaced) {
    Blank(s.left) && Blank(s.right) && Trimmed(s.text)
  }

  predicate OwnLine(t: string) {
    t != "" && Trimmed(t) && '|' !in t
  }

  predicate MarkWell(m: Mark, text: string) {
    match m
    case Hashes(level) => 1 <= level <= 6
    case Dot(sign) => (sign == '-' || sign == '*') && !LooksBoxed(text)
    case Box(sign, gap, tick) => (sign == '-' || sign == '*') && IsGap(gap) && tick in {' ', 'x', 'X'}
    case Digits(digits) => digits != "" && forall k :: 0 <= k < |digits| ==> IsDigit(digits[k])
  }

  /** The text of a bullet would be taken for a check box. */
  predicate LooksBoxed(t: string) {
    |t| > 3 && t[0] == '[' && t[1] in {' ', 'x', 'X'} && t[2] == ']' && IsReSpace(t[3])
  }

  ghost predicate Well(w: Written) {
    match w
    case BlankLine(space) => Blank(space)
    case TextLines(lines) =>
      lines != [] && forall k :: 0 <= k < |lines| ==>
        SpacedWell(lines[k]) && OwnLine(lines[k].text) && LooksPlain(lines[k].text)
    case Marked(left, mark, gap, text, right) =>
      IsIndentation(left) && Blank(right) && IsGap(gap) && OwnLine(text) && MarkWell(mark, text)
    case QuoteLines(left, texts) =>
      Blank(left) && texts != [] && forall k :: 0 <= k < |texts| ==> SpacedWell(texts[k]) && '|' !in Raw(texts[k])
    case Rule(left, sign, length, right) => Blank(left) && Blank(right) && sign in {'-', '*', '_'} && length >= 3
    case Fenced(language, body, _) =>
      Trimmed(language) && '|' !in language && forall k :: 0 <= k < |body| ==> !IsFence(body[k])
    case Grid(head, aligns, rows) =>
      && GridWell(head) && !("```" <= GridCore(head)) && HeadingMatch(GridCore(head)).None? && !(">" <= GridCore(head))
      && GridWell(aligns) && |aligns.cells| >= 2 && (forall c :: 0 <= c < |aligns.cells| ==> AlignWell(aligns.cells[c]))
      && forall r :: 0 <= r < |rows| ==> GridWell(rows[r])
  }

  /** A row has a pipe, its cells have none, and without an outer pipe it starts or ends with a text. */
  predicate GridWell(r: GridRow) {
    && Blank(r.left) && Blank(r.right) && r.cells != [] && (r.opening || r.closing || |r.cells| >= 2)
    && (forall c :: 0 <= c < |r.cells| ==> SpacedWell(r.cells[c]) && '|' !in Raw(r.cells[c]))
    && (!r.opening ==> r.cells[0].left == "" && r.cells[0].text != "")
    && (!r.closing ==> r.cells[|r.cells| - 1].right == "" && r.cells[|r.cells| - 1].text != "")
  }

  /** Dashes, with or without a colon at either end. */
  ghost predicate AlignWell(s: Spaced) {
    && (s.left == "" || IsGap(s.left)) && (s.right == "" || IsGap(s.right))
    && exists l: string, n: nat, r: string :: IsAlign(s.text, l, n, r)
  }

  predicate IsAlign(t: string, l: string, n: nat, r: string) {
    (l == "" || l == ":") && (r == "" || r == ":") && n >= 1 && t == l + Repeat('-', n) + r
  }

  /** Neighbours that would run into one another are kept apart, and only the last fence may stay open. */
  predicate Parted(w: Written, next: seq<Written>) {
    && (next != [] && w.TextLines? ==> !next[0].TextLines?)
    && (next != [] && w.QuoteLines? ==> !next[0].QuoteLines?)
    && (next != [] && w.Grid? ==> !next[0].Grid?)
    && (w.Fenced? && !w.closed ==> next == [])
  }

  ghost predicate WellWritten(ws: seq<Written>) {
    forall k :: 0 <= k < |ws| ==> Well(ws[k]) && Parted(ws[k], ws[k + 1..])
  }

  // ----- what they stand for -----

  /** The texts with exactly one space between neighbours. */
  function OneSpaced(texts: seq<Spaced>): string {
    if texts == [] then ""
    else if |texts| == 1 then texts[0].text
    else texts[0].text + " " + OneSpaced(texts[1..])
  }

  function MarkedBlock(m: Mark, text: string): Block {
    match m
    case Hashes(level) => Heading(if level <= 3 then level else 3, Parse(text))
    case Dot(_) => BulletItem(Parse(text))
    case Box(_, _, tick) => CheckItem(tick == 'x' || tick == 'X', Parse(text))
    case Digits(_) => NumberedItem(Parse(text))
  }

  /** The block a piece of writing stands for; list items carry the width of their indentation. */
  function Meaning(w: Written): seq<Item<Block>> {
    match w
    case BlankLine(_) => []
    case TextLines(lines) => [Root(Paragraph(Parse(OneSpaced(lines))))]
    case Marked(left, mark, _, text, _) =>
      [if mark.Hashes? then Root(MarkedBlock(mark, text)) else ListItem(|left|, MarkedBlock(mark, text))]
    case QuoteLines(_, texts) => [Root(Quote(Parse(OneSpaced(texts))))]
    case Rule(_, _, _, _) => [Root(Divider)]
    case Fenced(language, body, _) => [Root(CodeBlock(language, Join(body, "\n")))]
    case Grid(head, _, rows) => [Root(GridBlock([head] + rows))]
  }

  /** The number of cells of the longest row. */
  function Widest(rows: seq<GridRow>): nat {
    if rows == [] then 0
    else if |rows[0].cells| >= Widest(rows[1..]) then |rows[0].cells|
    else Widest(rows[1..])
  }

  /** Every row has as many cells as the longest one; those it lacks are empty. */
  function GridBlock(rows: seq<GridRow>): Block {
    var width := Widest(rows);
    Table(Map(rows, (r: GridRow) => seq(width, c requires 0 <= c < width => if c < |r.cells| then Parse(r.cells[c].text) else [])))
  }

  function AllLines(ws: seq<Written>): seq<string> {
    if ws == [] then [] else RawLines(ws[0]) + AllLines(ws[1..])
  }

  function Meanings(ws: seq<Written>): seq<Item<Block>> {
    if ws == [] then [] else Meaning(ws[0]) + Meanings(ws[1..])
  }

  // ----- one marked line -----

  lemma {:induction false} GapDropped(gap: string, t: string)
    requires IsGap(gap) && t != "" && !IsReSpace(t[0])
    ensures DropReSpace(gap + t) == t
  {
    assert (gap + t)[1..] == gap[1..] + t;
    if |gap| == 1 {
      assert gap[1..] + t == t;
    } else {
      GapDropped(gap[1..], t);
    }
  }

  lemma HashesMatch(level: nat, gap: string, text: string)
    requires 1 <= level <= 6 && IsGap(gap) && OwnLine(text)
    ensures HeadingMatch(Repeat('#', level) + gap + text) == Some((level, text))
  {
    var line := Repeat('#', level) + gap + text;
    assert line[level] == gap[0] && line[level..] == gap + text;
    assert RunLength(line, IsHash) == level;
    GapDropped(gap, text);
  }

  lemma DotMatch(sign: char, gap: string, t: string)
    requires (sign == '-' || sign == '*') && IsGap(gap) && t != "" && !IsReSpace(t[0])
    ensures BulletMatch([sign] + gap + t) == Some(t)
  {
    var line := [sign] + gap + t;
    assert line[1] == gap[0] && line[1..] == gap + t;
    GapDropped(gap, t);
  }

  lemma BoxMatch(sign: char, gap: string, tick: char, gap2: string, text: string)
    requires (sign == '-' || sign == '*') && IsGap(gap) && tick in {' ', 'x', 'X'} && IsGap(gap2) && OwnLine(text)
    ensures CheckMatch([sign] + gap + ("[" + [tick] + "]") + gap2 + text) == Some((tick != ' ', text))
  {
    var t := "[" + [tick] + "]" + gap2 + text;
    assert [sign] + gap + ("[" + [tick] + "]") + gap2 + text == [sign] + gap + t;
    DotMatch(sign, gap, t);
    assert t[3] == gap2[0] && t[3..] == gap2 + text;
    GapDropped(gap2, text);
  }

  lemma DigitsMatch(digits: string, gap: string, text: string)
    requires digits != "" && (forall k :: 0 <= k < |digits| ==> IsDigit(digits[k])) && IsGap(gap) && OwnLine(text)
    ensures NumberMatch(digits + "." + gap + text) == Some(text)
  {
    var line, n := digits + "." + gap + text, |digits|;
    assert line[n] == '.' && line[n + 1] == gap[0] && line[n + 1..] == gap + text;
    assert forall k :: 0 <= k < n ==> line[k] == digits[k];
    assert RunLength(line, IsDigit) == n;
    GapDropped(gap, text);
  }

  /** What follows the opening of a list item. */
  lemma ItemMatch(m: Mark, gap: string, text: string)
    requires !m.Hashes? && MarkWell(m, text) && IsGap(gap) && OwnLine(text)
    ensures ListItemOf(Prefix(m) + gap + text) == Some(MarkedBlock(m, text))
  {
    match m
    case Dot(sign) => DotMatch(sign, gap, text);
    case Box(sign, g, tick) => BoxMatch(sign, g, tick, gap, text);
    case Digits(digits) =>
      DigitsMatch(digits, gap, text);
      assert IsDigit((Prefix(m) + gap + text)[0]);
  }

  lemma PrefixShape(m: Mark, gap: string, text: string)
    requires MarkWell(m, text) && IsGap(gap) && OwnLine(text)
    ensures var core := Prefix(m) + gap + text;
            && Trimmed(core) && |core| >= 3 && '|' !in core
            && core[0] !in {'`', '>', '_'} && (core[0] == '#' <==> m.Hashes?)
            && (core[0] == '-' || core[0] == '*' ==> IsReSpace(core[1]))
  {
    var core := Prefix(m) + gap + text;
    assert core[|core| - 1] == text[|text| - 1];
    assert core[0] == Prefix(m)[0];
    match m
    case Hashes(_) =>
    case Dot(_) => assert core[1] == gap[0];
    case Box(_, g, _) => assert core[1] == g[0];
    case Digits(digits) => assert IsDigit(digits[0]);
  }

  lemma IndentationRead(left: string, core: string, right: string)
    requires IsIndentation(left) && Blank(right) && core != "" && Trimmed(core)
    ensures TrimSpace(left + core + right) == core && LeadingIndent(left + core + right) == |left|
  {
    TrimPadded(left, core, right);
    var line := left + core + right;
    assert line[|left|] == core[0];
    assert forall k :: 0 <= k < |left| ==> line[k] == left[k];
  }

  lemma HeadingTaken(lines: seq<string>, level: int, text: string)
    requires lines != [] && HeadingMatch(TrimSpace(lines[0])) == Some((level, text))
    ensures Take(lines) == Emit(Root(Heading(if level > 3 then 3 else level, Parse(text))), 1)
  {
    assert TrimSpace(lines[0])[0] == '#';
  }

  lemma ItemTaken(lines: seq<string>, b: Block)
    requires lines != [] && ListItemOf(TrimSpace(lines[0])) == Some(b)
    requires var line := TrimSpace(lines[0]);
             && |line| >= 2 && '|' !in line && line[0] !in {'`', '>', '#', '_'}
             && (line[0] == '-' || line[0] == '*' ==> IsReSpace(line[1]))
    ensures Take(lines) == Emit(ListItem(LeadingIndent(lines[0]), b), 1)
  {
    var line := TrimSpace(lines[0]);
    assert !IsThematic(line) by {
      assert line[1] == line[0] ==> line[0] != '-' && line[0] != '*';
    }
    assert HeadingMatch(line).None?;
  }

  /** A heading of any level and a list item however it is marked. */
  lemma MarkedTaken(w: Written, rest: seq<string>)
    requires w.Marked? && Well(w)
    ensures Take(RawLines(w) + rest) == Emit(Meaning(w)[0], 1)
  {
    var core, lines := Prefix(w.mark) + w.gap + w.text, RawLines(w) + rest;
    PrefixShape(w.mark, w.gap, w.text);
    IndentationRead(w.left, core, w.right);
    assert lines[0] == w.left + core + w.right;
    if w.mark.Hashes? {
      HashesMatch(w.mark.level, w.gap, w.text);
      HeadingTaken(lines, w.mark.level, w.text);
    } else {
      ItemMatch(w.mark, w.gap, w.text);
      ItemTaken(lines, MarkedBlock(w.mark, w.text));
    }
  }

  lemma RuleTaken(w: Written, rest: seq<string>)
    requires w.Rule? && Well(w)
    ensures Take(RawLines(w) + rest) == Emit(Root(Divider), 1)
  {
    var core, lines := Repeat(w.sign, w.length), RawLines(w) + rest;
    TrimPadded(w.left, core, w.right);
    assert lines[0] == w.left + core + w.right;
    assert core[0] == w.sign && !("```" <= core);
    assert HeadingMatch(core).None?;
  }

  lemma BlankTaken(space: string, rest: seq<string>)
    requires Blank(space)
    ensures Take([space] + rest) == Gap
  {
    TrimPadded(space, "", "");
    assert space + "" + "" == space;
  }

  lemma TextTaken(s: Spaced, rest: seq<string>)
    requires SpacedWell(s) && OwnLine(s.text) && LooksPlain(s.text)
    ensures Take([Raw(s)] + rest) == ParaLine(s.text)
  {
    TrimPadded(s.left, s.text, s.right);
    var lines := [Raw(s)] + rest;
    assert lines[0] == s.left + s.text + s.right;
    assert CheckMatch(s.text).None?;
  }

  // ----- quotes -----

  lemma QuoteReads(left: string, s: Spaced)
    requires Blank(left) && SpacedWell(s) && '|' !in Raw(s)
    ensures var raw := QuoteRaw(left, s);
            && IsQuote(raw) && QuoteText(raw) == s.text && '|' !in TrimSpace(raw) && TrimSpace(raw) != ""
  {
    var raw := QuoteRaw(left, s);
    if s.text == "" {
      assert raw == left + ">" + (s.left + s.right);
      TrimPadded(left, ">", s.left + s.right);
      assert ">"[1..] == "";
      TrimmedStays("");
    } else {
      var core := ">" + s.left + s.text;
      assert core[|core| - 1] == s.text[|s.text| - 1];
      assert raw == left + core + s.right;
      TrimPadded(left, core, s.right);
      assert core[1..] == s.left + s.text + "";
      TrimPadded(s.left, s.text, "");
      assert forall k :: 0 <= k < |core| - 1 ==> core[k + 1] == Raw(s)[k];
    }
  }

  lemma {:induction false} OneSpacedIsJoin(texts: seq<Spaced>)
    ensures OneSpaced(texts) == Join(Words(texts), " ")
  {
    if |texts| > 1 {
      OneSpacedIsJoin(texts[1..]);
      assert Words(texts)[1..] == Map(texts[1..], (s: Spaced) => s.text);
    }
  }

  lemma QuoteTextsRead(left: string, texts: seq<Spaced>)
    requires Well(QuoteLines(left, texts))
    ensures Map(RawLines(QuoteLines(left, texts)), QuoteText) == Words(texts)
  {
    forall k | 0 <= k < |texts| ensures QuoteText(QuoteRaw(left, texts[k])) == texts[k].text {
      QuoteReads(left, texts[k]);
    }
  }

  /** Quote lines up to one that is none make one quote. */
  lemma QuotesTaken(w: Written, rest: seq<string>)
    requires w.QuoteLines? && Well(w) && (rest == [] || !IsQuote(rest[0]))
    ensures Take(RawLines(w) + rest) == Emit(Meaning(w)[0], |RawLines(w)|)
  {
    var raw := RawLines(w);
    var lines := raw + rest;
    forall k | 0 <= k < |raw| ensures IsQuote(lines[k]) {
      QuoteReads(w.left, w.texts[k]);
    }
    LeadIs(lines, IsQuote, |raw|);
    assert lines[..|raw|] == raw;
    QuoteTextsRead(w.left, w.texts);
    OneSpacedIsJoin(w.texts);
    QuoteReads(w.left, w.texts[0]);
    assert lines[0] == QuoteRaw(w.left, w.texts[0]);
    QuoteLineTaken(lines);
  }

  lemma QuoteLineTaken(lines: seq<string>)
    requires lines != [] && IsQuote(lines[0]) && '|' !in TrimSpace(lines[0])
    ensures Take(lines) == TakeQuote(lines)
  {
    assert TrimSpace(lines[0])[0] == '>';
  }

  // ----- fences -----

  lemma CodeLinesTaken(fence: string, body: seq<string>, rest: seq<string>)
    requires IsFence(fence) && (forall k :: 0 <= k < |body| ==> !IsFence(body[k])) && (rest == [] || IsFence(rest[0]))
    ensures TakeCode([fence] + (body + rest))
         == Emit(Root(CodeBlock(TrimSpace(TrimSpace(fence)[3..]), Join(body, "\n"))), |body| + if rest == [] then 1 else 2)
  {
    var lines := [fence] + (body + rest);
    assert lines[1..] == body + rest;
    LeadIs(body + rest, IsNotFence, |body|);
    assert (body + rest)[..|body|] == body;
  }

  lemma FencedSplit(fence: string, body: seq<string>, end: seq<string>, rest: seq<string>)
    ensures [fence] + body + end + rest == [fence] + (body + (end + rest))
  {
  }

  /** A fence takes everything up to the next one, or to the end. */
  lemma FencedTaken(w: Written, rest: seq<string>)
    requires w.Fenced? && Well(w) && (!w.closed ==> rest == [])
    ensures Take(RawLines(w) + rest) == Emit(Meaning(w)[0], |RawLines(w)|)
  {
    var fence, end := "```" + w.language, if w.closed then ["```"] else [];
    FenceLine(w.language);
    FenceLine("");
    CodeLinesTaken(fence, w.body, end + rest);
    FencedSplit(fence, w.body, end, rest);
    FenceIsCode(RawLines(w) + rest);
  }

  // ----- tables -----

  function Texts(r: GridRow): seq<string> {
    Map(r.cells, (s: Spaced) => s.text)
  }

  lemma JoinFirst(parts: seq<string>, sep: string)
    requires parts != [] && parts[0] != ""
    ensures Join(parts, sep) != "" && Join(parts, sep)[0] == parts[0][0]
  {
  }

  lemma {:induction false} JoinLast(parts: seq<string>, sep: string)
    requires parts != [] && parts[|parts| - 1] != ""
    ensures var j, last := Join(parts, sep), parts[|parts| - 1]; j != "" && j[|j| - 1] == last[|last| - 1]
  {
    if |parts| > 1 {
      JoinLast(parts[1..], sep);
      assert parts[1..][|parts[1..]| - 1] == parts[|parts| - 1];
    }
  }

  lemma RawEnds(s: Spaced)
    requires SpacedWell(s) && '|' !in Raw(s) && s.text != ""
    ensures s.left == "" ==> Raw(s) != "" && Raw(s)[0] != '|' && !IsSpace(Raw(s)[0])
    ensures s.right == "" ==> Raw(s) != "" && Raw(s)[|Raw(s)| - 1] != '|' && !IsSpace(Raw(s)[|Raw(s)| - 1])
  {
    var raw := Raw(s);
    assert raw[|s.left|] == s.text[0];
    assert raw[|s.left| + |s.text| - 1] == s.text[|s.text| - 1];
  }

  /** Where a row has no outer pipe, it starts or ends with a character of its own. */
  predicate EndsBare(opening: bool, j: string, closing: bool) {
    && (!opening ==> j != "" && j[0] != '|' && !IsSpace(j[0]))
    && (!closing ==> j != "" && j[|j| - 1] != '|' && !IsSpace(j[|j| - 1]))
  }

  lemma CellsEndBare(r: GridRow)
    requires GridWell(r)
    ensures EndsBare(r.opening, Join(Map(r.cells, Raw), "|"), r.closing)
  {
    var cells := Map(r.cells, Raw);
    if !r.opening {
      RawEnds(r.cells[0]);
      JoinFirst(cells, "|");
    }
    if !r.closing {
      RawEnds(r.cells[|r.cells| - 1]);
      JoinLast(cells, "|");
    }
  }

  function Piped(opening: bool, j: string, closing: bool): string {
    (if opening then "|" else "") + j + (if closing then "|" else "")
  }

  lemma PipesOff(opening: bool, j: string, closing: bool)
    requires EndsBare(opening, j, closing) && (opening || closing || j != "")
    ensures var s := Piped(opening, j, closing);
            TrimPipes(s) == j && s != "" && Trimmed(s) && (opening ==> s[0] == '|') && (closing ==> s[|s| - 1] == '|')
  {
    var s := Piped(opening, j, closing);
    if opening {
      assert s[0] == '|' && s[1..] == j + (if closing then "|" else "");
    } else {
      assert s[0] == j[0];
    }
    if closing {
      assert (j + "|")[..|j|] == j;
    } else {
      assert j + "" == j && s[|s| - 1] == j[|j| - 1];
    }
  }

  lemma GridSplits(r: GridRow)
    requires GridWell(r)
    ensures GridCore(r) != "" && Trimmed(GridCore(r)) && TrimSpace(GridRaw(r)) == GridCore(r)
    ensures (r.opening ==> GridCore(r)[0] == '|') && (r.closing ==> GridCore(r)[|GridCore(r)| - 1] == '|')
    ensures Split(TrimPipes(GridCore(r)), '|') == Map(r.cells, Raw)
  {
    var cells := Map(r.cells, Raw);
    CellsEndBare(r);
    PipesOff(r.opening, Join(cells, "|"), r.closing);
    TrimPadded(r.left, GridCore(r), r.right);
    SplitJoin(cells, '|');
  }

  lemma CellsTrim(cells: seq<Spaced>)
    requires forall c :: 0 <= c < |cells| ==> SpacedWell(cells[c])
    ensures Map(Map(cells, Raw), TrimSpace) == Map(cells, (s: Spaced) => s.text)
  {
    forall c | 0 <= c < |cells| ensures TrimSpace(Raw(cells[c])) == cells[c].text {
      TrimPadded(cells[c].left, cells[c].text, cells[c].right);
    }
  }

  lemma GridReads(r: GridRow)
    requires GridWell(r)
    ensures SplitRow(GridRaw(r)) == Texts(r) && SplitRow(TrimSpace(GridRaw(r))) == Texts(r)
  {
    GridSplits(r);
    TrimmedStays(GridCore(r));
    CellsTrim(r.cells);
  }

  lemma {:induction false} JoinHasSep(parts: seq<string>, sep: char)
    requires |parts| >= 2
    ensures sep in Join(parts, [sep])
  {
    var j := Join(parts, [sep]);
    assert j == parts[0] + [sep] + Join(parts[1..], [sep]);
    assert j[|parts[0]|] == sep;
  }

  lemma GridIsRow(r: GridRow)
    requires GridWell(r)
    ensures IsRow(GridRaw(r)) && '|' in GridCore(r)
  {
    GridSplits(r);
    if !r.opening && !r.closing {
      JoinHasSep(Map(r.cells, Raw), '|');
    } else {
      assert r.opening ==> GridCore(r)[0] in GridCore(r);
      assert r.closing ==> GridCore(r)[|GridCore(r)| - 1] in GridCore(r);
    }
  }

  lemma {:induction false} GapEnds(t: string, gap: string)
    requires (gap == "" || IsGap(gap)) && t != "" && !IsReSpace(t[|t| - 1])
    ensures DropReSpaceEnd(t + gap) == t
  {
    if gap == "" {
      assert t + gap == t;
    } else {
      assert (t + gap)[..|t + gap| - 1] == t + gap[..|gap| - 1];
      GapEnds(t, gap[..|gap| - 1]);
    }
  }

  lemma GapStarts(gap: string, t: string)
    requires (gap == "" || IsGap(gap)) && t != "" && !IsReSpace(t[0])
    ensures DropReSpace(gap + t) == t
  {
    if gap == "" {
      assert gap + t == t;
    } else {
      GapDropped(gap, t);
    }
  }

  lemma AlignBare(l: string, n: nat, r: string)
    requires IsAlign(l + Repeat('-', n) + r, l, n, r)
    ensures var t := l + Repeat('-', n) + r;
            var u := if ":" <= t then t[1..] else t;
            var v := if u != "" && u[|u| - 1] == ':' then u[..|u| - 1] else u;
            t != "" && !IsReSpace(t[0]) && !IsReSpace(t[|t| - 1]) && v == Repeat('-', n)
  {
    var t := l + Repeat('-', n) + r;
    var u := if ":" <= t then t[1..] else t;
    assert l == "" ==> t[0] == '-';
    assert u == Repeat('-', n) + r;
    if r == ":" {
      assert u[..|u| - 1] == Repeat('-', n);
    } else {
      assert u == Repeat('-', n) && u[|u| - 1] == '-';
    }
  }

  lemma CellTrims(s: Spaced)
    requires (s.left == "" || IsGap(s.left)) && (s.right == "" || IsGap(s.right))
    requires s.text != "" && !IsReSpace(s.text[0]) && !IsReSpace(s.text[|s.text| - 1])
    ensures DropReSpaceEnd(DropReSpace(Raw(s))) == s.text
  {
    var tail := s.text + s.right;
    Assoc(s.left, s.text, s.right);
    assert tail[0] == s.text[0];
    GapStarts(s.left, tail);
    GapEnds(s.text, s.right);
  }

  lemma DashesSep(cell: string, l: string, n: nat, r: string)
    requires IsAlign(l + Repeat('-', n) + r, l, n, r) && DropReSpaceEnd(DropReSpace(cell)) == l + Repeat('-', n) + r
    ensures IsSepCell(cell)
  {
    AlignBare(l, n, r);
  }

  lemma AlignReads(s: Spaced)
    requires AlignWell(s)
    ensures IsSepCell(Raw(s))
  {
    var l: string, n: nat, r: string :| IsAlign(s.text, l, n, r);
    AlignBare(l, n, r);
    CellTrims(s);
    DashesSep(Raw(s), l, n, r);
  }

  lemma AlignsRead(r: GridRow)
    requires GridWell(r) && |r.cells| >= 2 && forall c :: 0 <= c < |r.cells| ==> AlignWell(r.cells[c])
    ensures IsTableSep(TrimSpace(GridRaw(r)))
  {
    GridSplits(r);
    forall c | 0 <= c < |r.cells| ensures IsSepCell(Map(r.cells, Raw)[c]) {
      AlignReads(r.cells[c]);
    }
  }

  /** A single column of dashes does not make a table. */
  lemma OneColumnIsNone(r: GridRow)
    requires GridWell(r) && |r.cells| == 1
    ensures !IsTableSep(TrimSpace(GridRaw(r)))
  {
    GridSplits(r);
  }

  lemma {:induction false} WidestIs(rows: seq<GridRow>)
    ensures Columns(Map(rows, Texts)) == Widest(rows)
  {
    if rows != [] {
      WidestIs(rows[1..]);
      assert Map(rows, Texts)[1..] == Map(rows[1..], Texts);
    }
  }

  lemma GridRowIs(r: GridRow, width: nat)
    ensures RowOf(Texts(r), width) == seq(width, c requires 0 <= c < width => if c < |r.cells| then Parse(r.cells[c].text) else [])
  {
    assert Parse("") == [];
  }

  lemma GridIsTable(rows: seq<GridRow>)
    ensures TableOf(Map(rows, Texts)) == GridBlock(rows)
  {
    var width := Widest(rows);
    WidestIs(rows);
    forall r | 0 <= r < |rows| ensures TableOf(Map(rows, Texts)).rows[r] == GridBlock(rows).rows[r] {
      GridRowIs(rows[r], width);
    }
  }

  lemma GridRowsRead(rows: seq<GridRow>, rest: seq<string>)
    requires (forall r :: 0 <= r < |rows| ==> GridWell(rows[r])) && (rest == [] || !IsRow(rest[0]))
    ensures Lead(Map(rows, GridRaw) + rest, IsRow) == |rows| && Map(Map(rows, GridRaw), SplitRow) == Map(rows, Texts)
  {
    var lines := Map(rows, GridRaw);
    forall r | 0 <= r < |rows| ensures IsRow((lines + rest)[r]) && SplitRow(lines[r]) == Texts(rows[r]) {
      GridIsRow(rows[r]);
      GridReads(rows[r]);
    }
    LeadIs(lines + rest, IsRow, |rows|);
  }

  lemma GridLineTaken(lines: seq<string>)
    requires |lines| >= 2 && '|' in TrimSpace(lines[0]) && IsTableSep(TrimSpace(lines[1]))
    requires !("```" <= TrimSpace(lines[0])) && HeadingMatch(TrimSpace(lines[0])).None?
    ensures Take(lines) == TakeTable(lines)
  {
    var line := TrimSpace(lines[0]);
    assert !IsThematic(line) by {
      var k :| 0 <= k < |line| && line[k] == '|';
    }
  }

  lemma GridRowsTaken(head: GridRow, sep: string, rows: seq<GridRow>, rest: seq<string>)
    requires GridWell(head) && (forall r :: 0 <= r < |rows| ==> GridWell(rows[r])) && (rest == [] || !IsRow(rest[0]))
    ensures TakeTable([GridRaw(head), sep] + Map(rows, GridRaw) + rest) == Emit(Root(GridBlock([head] + rows)), |rows| + 2)
  {
    GridRowsRead(rows, rest);
    TableLinesTaken(GridRaw(head), sep, Map(rows, GridRaw), rest);
    GridReads(head);
    MapCons(head, rows, Texts);
    GridIsTable([head] + rows);
  }

  lemma GridOpens(w: Written, rest: seq<string>)
    requires w.Grid? && Well(w)
    ensures |RawLines(w)| >= 2 && Take(RawLines(w) + rest) == TakeTable(RawLines(w) + rest)
  {
    var lines := RawLines(w) + rest;
    assert lines[0] == GridRaw(w.head) && lines[1] == GridRaw(w.aligns);
    GridIsRow(w.head);
    GridSplits(w.head);
    AlignsRead(w.aligns);
    GridLineTaken(lines);
  }

  /** A table: any row with a pipe, then dashes, then rows up to a line that is none. */
  lemma GridTaken(w: Written, rest: seq<string>)
    requires w.Grid? && Well(w) && (rest == [] || !IsRow(rest[0]))
    ensures Take(RawLines(w) + rest) == Emit(Meaning(w)[0], |RawLines(w)|)
  {
    GridOpens(w, rest);
    GridRowsTaken(w.head, GridRaw(w.aligns), w.rows, rest);
  }

  // ----- the whole text -----

  /** Lines that make up one item are read as it. */
  lemma TakenScan(lines: seq<string>, item: Item<Block>, n: nat, para: seq<string>)
    requires lines != [] && Take(lines) == Emit(item, n)
    ensures Scan(lines, para) == FlushPara(para) + [item] + Scan(lines[n..], [])
  {
  }

  lemma TextStep(s: Spaced, rest: seq<string>, para: seq<string>)
    requires SpacedWell(s) && OwnLine(s.text) && LooksPlain(s.text)
    ensures Scan([Raw(s)] + rest, para) == Scan(rest, para + [s.text])
  {
    TextTaken(s, rest);
    assert ([Raw(s)] + rest)[1..] == rest;
  }

  lemma {:induction false} TextScan(texts: seq<Spaced>, rest: seq<string>, para: seq<string>)
    requires forall k :: 0 <= k < |texts| ==> SpacedWell(texts[k]) && OwnLine(texts[k].text) && LooksPlain(texts[k].text)
    ensures Scan(Map(texts, Raw) + rest, para) == Scan(rest, para + Words(texts))
    decreases texts
  {
    if texts == [] {
      assert Map(texts, Raw) + rest == rest && para + Words(texts) == para;
    } else {
      var more := Map(texts[1..], Raw) + rest;
      MapRest(texts, rest);
      TextStep(texts[0], more, para);
      TextScan(texts[1..], rest, para + [texts[0].text]);
      WordsRest(texts, para);
    }
  }

  function Words(texts: seq<Spaced>): seq<string> {
    Map(texts, (s: Spaced) => s.text)
  }

  lemma MapRest(texts: seq<Spaced>, rest: seq<string>)
    requires texts != []
    ensures Map(texts, Raw) + rest == [Raw(texts[0])] + (Map(texts[1..], Raw) + rest)
  {
  }

  lemma WordsRest(texts: seq<Spaced>, para: seq<string>)
    requires texts != []
    ensures para + [texts[0].text] + Words(texts[1..]) == para + Words(texts)
  {
  }

  /** A paragraph ends before anything that is no line of it. */
  lemma ParaStops(lines: seq<string>, para: seq<string>)
    requires lines == [] || !Take(lines).ParaLine?
    ensures Scan(lines, para) == FlushPara(para) + Scan(lines, [])
  {
    if lines == [] {
      assert FlushPara(para) + [] == FlushPara(para);
    } else {
      var t := Take(lines);
      var tail := t.Items() + Scan(lines[t.Size()..], []);
      assert FlushPara([]) + t.Items() == t.Items();
      Assoc(FlushPara(para), t.Items(), Scan(lines[t.Size()..], []));
    }
  }

  /** The next block does not go on with a paragraph or a quote. */
  predicate StartsAnew(w: Written, rest: seq<string>) {
    && (w.TextLines? ==> rest == [] || !Take(rest).ParaLine?)
    && (w.QuoteLines? ==> rest == [] || !IsQuote(rest[0]))
    && (w.Grid? ==> rest == [] || !IsRow(rest[0]))
    && (w.Fenced? && !w.closed ==> rest == [])
  }

  lemma TextLinesScan(texts: seq<Spaced>, rest: seq<string>)
    requires Well(TextLines(texts)) && (rest == [] || !Take(rest).ParaLine?)
    ensures Scan(Map(texts, Raw) + rest, []) == [Root(Paragraph(Parse(OneSpaced(texts))))] + Scan(rest, [])
  {
    var words := Words(texts);
    TextScan(texts, rest, []);
    ParaStops(rest, words);
    OneSpacedIsJoin(texts);
    assert [] + words == words;
  }

  lemma EmittedTaken(w: Written, rest: seq<string>)
    requires Well(w) && StartsAnew(w, rest) && !w.BlankLine? && !w.TextLines?
    ensures |Meaning(w)| == 1 && RawLines(w) != [] && Take(RawLines(w) + rest) == Emit(Meaning(w)[0], |RawLines(w)|)
  {
    match w
    case Marked(_, _, _, _, _) => MarkedTaken(w, rest);
    case QuoteLines(_, _) => QuotesTaken(w, rest);
    case Rule(_, _, _, _) => RuleTaken(w, rest);
    case Fenced(_, _, _) => FencedTaken(w, rest);
    case Grid(_, _, _) => GridTaken(w, rest);
  }

  lemma WrittenScan(w: Written, rest: seq<string>)
    requires Well(w) && StartsAnew(w, rest)
    ensures Scan(RawLines(w) + rest, []) == Meaning(w) + Scan(rest, [])
  {
    if w.BlankLine? {
      BlankTaken(w.space, rest);
      assert ([w.space] + rest)[1..] == rest;
    } else if w.TextLines? {
      TextLinesScan(w.lines, rest);
    } else {
      EmittedTaken(w, rest);
      WholeTaken(w, rest);
    }
  }

  lemma WholeTaken(w: Written, rest: seq<string>)
    requires |Meaning(w)| == 1 && RawLines(w) != [] && Take(RawLines(w) + rest) == Emit(Meaning(w)[0], |RawLines(w)|)
    ensures Scan(RawLines(w) + rest, []) == Meaning(w) + Scan(rest, [])
  {
    assert (RawLines(w) + rest)[|RawLines(w)|..] == rest;
    assert FlushPara([]) + [Meaning(w)[0]] == Meaning(w);
    TakenScan(RawLines(w) + rest, Meaning(w)[0], |RawLines(w)|, []);
  }

  /** What the first line of a piece of writing is after trimming. */
  function FirstCore(w: Written): string
    requires w.TextLines? ==> w.lines != []
    requires w.QuoteLines? ==> w.texts != []
  {
    match w
    case BlankLine(_) => ""
    case TextLines(lines) => lines[0].text
    case Marked(_, mark, gap, text, _) => Prefix(mark) + gap + text
    case QuoteLines(left, texts) => TrimSpace(QuoteRaw(left, texts[0]))
    case Rule(_, sign, length, _) => Repeat(sign, length)
    case Fenced(language, _, _) => "```" + language
    case Grid(head, _, _) => GridCore(head)
  }

  lemma FirstTrimmed(w: Written, rest: seq<string>)
    requires Well(w)
    ensures RawLines(w) != [] && TrimSpace((RawLines(w) + rest)[0]) == FirstCore(w)
  {
    match w
    case BlankLine(space) =>
      TrimPadded(space, "", "");
      assert space + "" + "" == space;
    case TextLines(texts) => TrimPadded(texts[0].left, texts[0].text, texts[0].right);
    case Marked(left, mark, gap, text, right) =>
      PrefixShape(mark, gap, text);
      IndentationRead(left, Prefix(mark) + gap + text, right);
    case QuoteLines(left, texts) =>
    case Rule(left, sign, length, right) => TrimPadded(left, Repeat(sign, length), right);
    case Fenced(language, _, _) => FenceStays(language);
    case Grid(head, _, _) => GridSplits(head);
  }

  lemma FenceStays(language: string)
    requires Trimmed(language)
    ensures TrimSpace("```" + language) == "```" + language && IsFence("```" + language)
  {
    var fence := "```" + language;
    assert language != "" ==> fence[|fence| - 1] == language[|language| - 1];
    TrimmedStays(fence);
  }

  lemma FirstQuoted(w: Written)
    requires Well(w) && !w.QuoteLines?
    ensures !(">" <= FirstCore(w))
  {
    match w
    case Marked(_, mark, gap, text, _) => PrefixShape(mark, gap, text);
    case Rule(_, sign, length, _) => assert Repeat(sign, length)[0] == sign;
    case Fenced(language, _, _) => assert ("```" + language)[0] == '`';
    case TextLines(lines) => assert LooksPlain(lines[0].text);
    case Grid(_, _, _) =>
    case BlankLine(_) =>
  }

  lemma FirstPiped(w: Written)
    requires Well(w) && !w.Grid?
    ensures '|' !in FirstCore(w)
  {
    match w
    case Marked(_, mark, gap, text, _) => PrefixShape(mark, gap, text);
    case QuoteLines(left, texts) => QuoteReads(left, texts[0]);
    case Rule(_, sign, length, _) => assert forall c :: c in Repeat(sign, length) ==> c == sign;
    case Fenced(language, _, _) => assert '|' !in "```";
    case TextLines(lines) => assert OwnLine(lines[0].text);
    case BlankLine(_) =>
  }

  lemma FirstLine(w: Written, rest: seq<string>)
    requires Well(w)
    ensures RawLines(w) != []
    ensures !w.TextLines? ==> !Take(RawLines(w) + rest).ParaLine?
    ensures !w.QuoteLines? ==> !IsQuote((RawLines(w) + rest)[0])
    ensures !w.Grid? ==> !IsRow((RawLines(w) + rest)[0])
  {
    FirstTrimmed(w, rest);
    if !w.QuoteLines? {
      FirstQuoted(w);
    }
    if !w.Grid? {
      FirstPiped(w);
    }
    if !w.TextLines? {
      FirstTaken(w, rest);
    }
  }

  lemma FirstTaken(w: Written, rest: seq<string>)
    requires Well(w) && !w.TextLines?
    ensures RawLines(w) != [] && !Take(RawLines(w) + rest).ParaLine?
  {
    var lines := RawLines(w) + rest;
    FirstTrimmed(w, rest);
    match w
    case BlankLine(space) => BlankTaken(space, rest);
    case Marked(_, _, _, _, _) => MarkedTaken(w, rest);
    case QuoteLines(left, texts) =>
      QuoteReads(left, texts[0]);
      QuoteLineTaken(lines);
    case Rule(_, _, _, _) => RuleTaken(w, rest);
    case Fenced(language, _, _) => FenceIsCode(lines);
    case Grid(_, _, _) => GridOpens(w, rest);
  }

  lemma TailWell(ws: seq<Written>)
    requires ws != [] && WellWritten(ws)
    ensures Well(ws[0]) && Parted(ws[0], ws[1..]) && WellWritten(ws[1..])
  {
    forall k | 0 <= k < |ws[1..]| ensures Well(ws[1..][k]) && Parted(ws[1..][k], ws[1..][k + 1..]) {
      assert Well(ws[k + 1]) && Parted(ws[k + 1], ws[k + 1 + 1..]);
      assert ws[1..][k + 1..] == ws[k + 1 + 1..];
    }
  }

  lemma NextStartsAnew(w: Written, next: seq<Written>)
    requires Parted(w, next) && WellWritten(next)
    ensures StartsAnew(w, AllLines(next))
  {
    if next != [] {
      TailWell(next);
      FirstLine(next[0], AllLines(next[1..]));
    }
  }

  /** Every well-written text is read as the blocks it stands for, in order. */
  lemma {:induction false} WrittenScans(ws: seq<Written>)
    requires WellWritten(ws)
    ensures Scan(AllLines(ws), []) == Meanings(ws)
  {
    if ws != [] {
      TailWell(ws);
      NextStartsAnew(ws[0], ws[1..]);
      WrittenScan(ws[0], AllLines(ws[1..]));
      WrittenScans(ws[1..]);
    }
  }

  /** The lines hold no line break, and no carriage return that would be taken for half of one. */
  ghost predicate SingleLines(lines: seq<string>) {
    AllFree(lines, '\n') && forall k :: 0 <= k < |lines| ==> !EndsInCR(lines[k])
  }

  lemma {:induction false} NothingChomped(lines: seq<string>)
    requires forall k :: 0 <= k < |lines| ==> !EndsInCR(lines[k])
    ensures Chomped(lines) == lines
  {
    if |lines| >= 2 {
      NothingChomped(lines[1..]);
      assert lines == [lines[0]] + lines[1..];
    }
  }

  lemma LinesOfJoin(lines: seq<string>)
    requires lines != [] && SingleLines(lines)
    ensures Lines(Join(lines, "\n")) == lines
  {
    ChompJoin(lines);
    NothingChomped(lines);
    SplitJoin(lines, '\n');
  }

  /** Well-written Markdown is read as the blocks it stands for, list items nested by their indentation. */
  lemma WrittenIsRead(ws: seq<Written>)
    requires WellWritten(ws) && SingleLines(AllLines(ws))
    ensures Read(Join(AllLines(ws), "\n")) == Forest(Meanings(ws))
  {
    WrittenScans(ws);
    if AllLines(ws) == [] {
      assert Lines("") == [""];
      BlankTaken("", []);
      assert Scan([""], []) == [];
    } else {
      LinesOfJoin(AllLines(ws));
    }
  }

  // ----- line endings -----

  function WithCR(lines: seq<string>): seq<string> {
    if |lines| < 2 then lines else [lines[0] + "\r"] + WithCR(lines[1..])
  }

  lemma {:induction false} CRJoin(lines: seq<string>)
    requires AllFree(lines, '\n')
    ensures Join(lines, "\r\n") == Join(WithCR(lines), "\n") && AllFree(WithCR(lines), '\n')
    ensures Chomped(WithCR(lines)) == lines && |WithCR(lines)| == |lines|
  {
    if |lines| >= 2 {
      var rest := WithCR(lines[1..]);
      CRJoin(lines[1..]);
      JoinCons(lines[0] + "\r", rest, "\n");
      assert Chomp(lines[0] + "\r") == lines[0];
      assert WithCR(lines)[1..] == rest;
      assert lines == [lines[0]] + lines[1..];
    }
  }

  /** Windows line endings make no difference. */
  lemma LineEndingsAlike(lines: seq<string>)
    requires SingleLines(lines)
    ensures Read(Join(lines, "\r\n")) == Read(Join(lines, "\n"))
  {
    if lines != [] {
      CRJoin(lines);
      ChompJoin(WithCR(lines));
      SplitJoin(lines, '\n');
      LinesOfJoin(lines);
    }
  }

  // ----- paragraphs of plain text -----

  lemma {:induction false} OneSpacedClean(texts: seq<Spaced>)
    requires texts != [] && forall k :: 0 <= k < |texts| ==> CleanText(texts[k].text)
    ensures CleanText(OneSpaced(texts))
  {
    if |texts| > 1 {
      OneSpacedClean(texts[1..]);
    }
  }

  lemma LoneRoot(b: Block)
    ensures Forest([Root(b)]) == [Node(b, [])]
  {
    ForestStep(Root(b), [], []);
    assert [Root(b)] + [] + [] == [Root(b)];
    assert Forest<Block>([]) == [];
  }

  lemma LoneWritten(w: Written)
    requires Well(w)
    ensures WellWritten([w]) && AllLines([w]) == RawLines(w) && Meanings([w]) == Meaning(w)
  {
    var ws := [w];
    assert ws[1..] == [];
    assert AllLines(ws) == RawLines(w) + [] == RawLines(w);
    assert Meanings(ws) == Meaning(w) + [] == Meaning(w);
  }

  /** Lines of plain text without a blank line between them are one paragraph with one run: the lines with
      exactly one space between neighbours, whatever white space surrounds them. */
  lemma PlainLinesAreOneParagraph(lines: seq<Spaced>)
    requires Well(TextLines(lines)) && SingleLines(Map(lines, Raw))
    requires forall k :: 0 <= k < |lines| ==> CleanText(lines[k].text)
    ensures Read(Join(Map(lines, Raw), "\n")) == [Node(Paragraph([Run(OneSpaced(lines), {})]), [])]
  {
    LoneWritten(TextLines(lines));
    WrittenIsRead([TextLines(lines)]);
    OneSpacedClean(lines);
    CleanParse(OneSpaced(lines));
    LoneRoot(Paragraph([Run(OneSpaced(lines), {})]));
  }
}
