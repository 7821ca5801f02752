/** What inline Markdown written by hand is read as (internal/blocknote/blocknote.go): both marks for
    italics, code taken literally, links, and marks that are never closed. */
module AuthoredInline {
  import opened Text
  import opened InlineCodec

  /** A piece of inline text as it is typed. */
  datatype Piece =
    | Words(text: string)
    | Ticks(code: string)
    | Marks(mark: string, inner: string)
    | Linked(caption: string, url: string)
    | Stray(sign: char)

  function Typed(p: Piece): string {
    match p
    case Words(text) => text
    case Ticks(code) => "`" + code + "`"
    case Marks(mark, inner) => mark + inner + mark
    case Linked(caption, url) => "[" + caption + "](" + url + ")"
    case Stray(sign) => [sign]
  }

  function AllTyped(ps: seq<Piece>): string {
    if ps == [] then "" else Typed(ps[0]) + AllTyped(ps[1..])
  }

  /** The style a mark stands for. */
  function StyleOf(mark: string): Style {
    if mark == "**" then Bold else if mark == "~~" then Strike else Italic
  }

  /** A mark does not occur in what it encloses; a stray one does not occur again. */
  predicate PieceWell(p: Piece, after: string) {
    match p
    case Words(text) => forall k :: 0 <= k < |text| ==> text[k] !in MARKUP
    case Ticks(code) => '`' !in code
    case Marks(mark, inner) => mark in ["**", "~~", "*", "_"] && inner != "" && mark[0] !in inner
    case Linked(caption, url) => ']' !in caption && ')' !in url
    case Stray(sign) =>
      || (sign in {'`', '*', '_'} && sign !in after)
      || (sign == '[' && ']' !in after)
      || (sign == '~' && (after == "" || after[0] != '~'))
      || sign == ']'
  }

  predicate PiecesWell(ps: seq<Piece>) {
    ps == [] || (PieceWell(ps[0], AllTyped(ps[1..])) && PiecesWell(ps[1..]))
  }

  /** What the pieces stand for, after the plain text `before`: words and stray marks run together into
      plain text, code is literal, and enclosed text gets its style. */
  function Stands(ps: seq<Piece>, before: string): seq<Inline>
    decreases ps
  {
    if ps == [] then Flush(before)
    else match ps[0]
      case Words(text) => Stands(ps[1..], before + text)
      case Stray(sign) => Stands(ps[1..], before + [sign])
      case Ticks(code) => Flush(before) + [Run(code, {Code})] + Stands(ps[1..], "")
      case Marks(mark, inner) => Flush(before) + ApplyStyle(Parse(inner), StyleOf(mark)) + Stands(ps[1..], "")
      case Linked(caption, url) => Flush(before) + [Link(url, Parse(caption))] + Stands(ps[1..], "")
  }

  lemma TicksRead(code: string, rest: string, buf: string)
    requires '`' !in code
    ensures ParseFrom("`" + code + "`" + rest, buf) == Flush(buf) + [Run(code, {Code})] + ParseFrom(rest, "")
  {
    var s := "`" + code + "`" + rest;
    assert s[1..] == code + "`" + rest;
    IndexAfter(code, "`", rest);
    assert s[1..][..|code|] == code;
    assert s[|code| + 2..] == rest;
  }

  lemma MarksRead(mark: string, inner: string, rest: string, buf: string)
    requires mark in ["**", "~~", "*", "_"] && inner != "" && mark[0] !in inner
    ensures ParseFrom(mark + inner + mark + rest, buf)
         == Flush(buf) + ApplyStyle(Parse(inner), StyleOf(mark)) + ParseFrom(rest, "")
  {
    if mark != "*" {
      StyleLayer(inner, mark, StyleOf(mark), rest, buf);
    } else {
      var s := mark + inner + mark + rest;
      assert s[1] == inner[0] && inner[0] in inner;
      assert s[1..] == inner + mark + rest;
      IndexAfter(inner, mark, rest);
      assert s[1..][..|inner|] == inner;
      assert SpanAt(s) == Styled(Italic, inner, 2 + |inner|);
      assert s[2 + |inner|..] == rest;
    }
  }

  lemma LinkedRead(caption: string, url: string, rest: string, buf: string)
    requires ']' !in caption && ')' !in url
    ensures ParseFrom("[" + caption + "](" + url + ")" + rest, buf)
         == Flush(buf) + [Link(url, Parse(caption))] + ParseFrom(rest, "")
  {
    var s := "[" + caption + "](" + url + ")" + rest;
    LinkSpanAt(caption, url, rest);
    ParseSpan(s, buf);
  }

  lemma Absent(s: string, pat: string)
    requires pat != "" && pat[0] !in s
    ensures Index(s, pat) == -1
  {
    forall j | 0 <= j <= |s| - |pat| ensures !OccursAt(s, j, pat) {
      assert s[j..j + |pat|][0] == s[j] && s[j] in s;
    }
  }

  lemma StrayRead(sign: char, rest: string)
    requires PieceWell(Stray(sign), rest)
    ensures SpanAt([sign] + rest).Plain?
  {
    var s := [sign] + rest;
    assert s[1..] == rest;
    if sign == '`' {
      Absent(rest, "`");
    } else if sign == '[' {
      assert ']' !in s;
      Absent(s, "]");
    } else if sign == '*' || sign == '_' {
      Absent(rest, [sign]);
      assert !("**" <= s) by {
        assert |s| > 1 ==> s[1] in rest;
      }
    }
  }

  /** Inline text is read as its pieces. */
  lemma {:induction false} PiecesRead(ps: seq<Piece>, before: string)
    requires PiecesWell(ps)
    ensures ParseFrom(AllTyped(ps), before) == Stands(ps, before)
    decreases ps
  {
    if ps != [] {
      var rest := AllTyped(ps[1..]);
      match ps[0]
      case Words(text) =>
        PlainRun(text, rest, before);
        PiecesRead(ps[1..], before + text);
      case Stray(sign) =>
        StrayRead(sign, rest);
        assert ([sign] + rest)[1..] == rest;
        PiecesRead(ps[1..], before + [sign]);
      case Ticks(code) =>
        TicksRead(code, rest, before);
        PiecesRead(ps[1..], "");
      case Marks(mark, inner) =>
        MarksRead(mark, inner, rest, before);
        PiecesRead(ps[1..], "");
      case Linked(caption, url) =>
        LinkedRead(caption, url, rest, before);
        PiecesRead(ps[1..], "");
    }
  }

  lemma CleanParse(t: string)
    requires CleanText(t)
    ensures Parse(t) == [Run(t, {})]
  {
    PlainRun(t, "", "");
    assert t + "" == t && "" + t == t;
  }

  lemma StyledOne(t: string, style: Style)
    ensures ApplyStyle([Run(t, {})], style) == [Run(t, {style})]
  {
    assert [Run(t, {})][1..] == [];
    assert {} + {style} == {style};
  }

  /** A marked plain text is one run with the style of the mark: `*x*` is italic like `_x_`. */
  lemma MarkedWords(mark: string, x: string)
    requires mark in ["**", "~~", "*", "_"] && CleanText(x)
    ensures Parse(mark + x + mark) == [Run(x, {StyleOf(mark)})]
  {
    assert mark[0] !in x;
    MarksRead(mark, x, "", "");
    assert mark + x + mark + "" == mark + x + mark;
    CleanParse(x);
    StyledOne(x, StyleOf(mark));
  }

  /** Adding a style reaches every run and changes no text, link or other style. */
  lemma {:induction false} StyleReaches(items: seq<Inline>, style: Style, k: nat)
    requires k < |items|
    ensures var x, y := items[k], ApplyStyle(items, style)[k];
            match x
            case Run(t, styles) => y == Run(t, styles + {style})
            case Link(href, content) => y == Link(href, ApplyStyle(content, style))
  {
    if k > 0 {
      StyleReaches(items[1..], style, k - 1);
    }
  }
}
