/** The inline half of the Markdown codec (internal/blocknote/blocknote.go): text runs with four
    styles and links, their parser, their printer, and the proof that the first undoes the second. */
module InlineCodec {
  import opened Text

  datatype Style = Bold | Italic | Code | Strike

  datatype Inline =
    | Run(text: string, styles: set<Style>)
    | Link(href: string, content: seq<Inline>)

  // ----- printing -----

  function Wrap(t: string, mark: string, on: bool): string {
    if on then mark + t + mark else t
  }

  /** Code innermost, then strike, italic, and bold outermost. */
  function StyleWrap(t: string, styles: set<Style>): string {
    Wrap(Wrap(Wrap(Wrap(t, "`", Code in styles), "~~", Strike in styles), "_", Italic in styles), "**", Bold in styles)
  }

  function PrintItem(item: Inline): string {
    match item
    case Run(t, styles) => StyleWrap(t, styles)
    case Link(href, content) => "[" + Print(content) + "](" + href + ")"
  }

  function Print(items: seq<Inline>): string {
    if items == [] then "" else PrintItem(items[0]) + Print(items[1..])
  }

  // ----- parsing -----

  /** The inner text of a span opened at the start of `s` by `mark`, when it is closed and not empty. */
  function MatchDelim(s: string, mark: string): (inner: Option<string>)
    requires mark != ""
    ensures inner.Some? ==> inner.value != "" && |inner.value| + 2 * |mark| <= |s|
  {
    if !(mark <= s) then None
    else
      var rest := s[|mark|..];
      var k := Index(rest, mark);
      if k <= 0 then None else Some(rest[..k])
  }

  datatype LinkMatch = LinkMatch(caption: string, url: string, size: nat)

  /** A `[label](url)` link at the start of `s`. */
  function MatchLink(s: string): (m: Option<LinkMatch>)
    ensures m.Some? ==> |m.value.caption| < m.value.size <= |s|
  {
    var closeB := Index(s, "]");
    if closeB < 1 || closeB + 1 >= |s| || s[closeB + 1] != '(' then None
    else
      var rest := s[closeB + 2..];
      var closeP := Index(rest, ")");
      if closeP < 0 then None
      else Some(LinkMatch(s[1..closeB], rest[..closeP], closeB + 2 + closeP + 1))
  }

  /** What the parser finds at the start of a text. */
  datatype Span =
    | Plain
    | CodeSpan(code: string)
    | LinkSpan(link: LinkMatch)
    | Styled(style: Style, inner: string, size: nat)

  function StyledSpan(s: string, mark: string, style: Style): (m: Span)
    requires mark != ""
    ensures m.Plain? || (m.Styled? && |m.inner| < m.size <= |s|)
  {
    match MatchDelim(s, mark)
    case None => Plain
    case Some(inner) => Styled(style, inner, 2 * |mark| + |inner|)
  }

  /** The parser's case analysis. A mark that is not closed counts as plain text; an unclosed `**`
      is not tried again as `*`. */
  function SpanAt(s: string): (m: Span)
    requires s != ""
    ensures m.CodeSpan? ==> |m.code| + 2 <= |s|
    ensures m.LinkSpan? ==> |m.link.caption| < m.link.size <= |s|
    ensures m.Styled? ==> |m.inner| < m.size <= |s|
  {
    if s[0] == '`' then
      var end := Index(s[1..], "`");
      if end < 0 then Plain else CodeSpan(s[1..][..end])
    else if s[0] == '[' then
      var m := MatchLink(s);
      if m.None? then Plain else LinkSpan(m.value)
    else if "**" <= s then StyledSpan(s, "**", Bold)
    else if "~~" <= s then StyledSpan(s, "~~", Strike)
    else if s[0] == '*' || s[0] == '_' then StyledSpan(s, [s[0]], Italic)
    else Plain
  }

  function Flush(buf: string): seq<Inline> {
    if buf == "" then [] else [Run(buf, {})]
  }

  /** Adds a style to every run, inside links too. */
  function ApplyStyle(items: seq<Inline>, style: Style): (r: seq<Inline>)
    ensures |r| == |items|
  {
    if items == [] then []
    else
      var head := match items[0]
        case Run(t, styles) => Run(t, styles + {style})
        case Link(href, content) => Link(href, ApplyStyle(content, style));
      [head] + ApplyStyle(items[1..], style)
  }

  function ParseFrom(s: string, buf: string): seq<Inline>
    decreases |s|
  {
    if s == "" then Flush(buf)
    else match SpanAt(s)
      case Plain => ParseFrom(s[1..], buf + [s[0]])
      case CodeSpan(code) => Flush(buf) + [Run(code, {Code})] + ParseFrom(s[|code| + 2..], "")
      case LinkSpan(m) => Flush(buf) + [Link(m.url, ParseFrom(m.caption, ""))] + ParseFrom(s[m.size..], "")
      case Styled(style, inner, n) => Flush(buf) + ApplyStyle(ParseFrom(inner, ""), style) + ParseFrom(s[n..], "")
  }

  function Parse(s: string): seq<Inline> {
    ParseFrom(s, "")
  }

  /** What a span stands for, and how much text it takes. */
  function SpanItems(span: Span): seq<Inline> {
    match span
    case Plain => []
    case CodeSpan(code) => [Run(code, {Code})]
    case LinkSpan(m) => [Link(m.url, Parse(m.caption))]
    case Styled(style, inner, _) => ApplyStyle(Parse(inner), style)
  }

  function SpanSize(span: Span): nat {
    match span
    case Plain => 1
    case CodeSpan(code) => |code| + 2
    case LinkSpan(m) => m.size
    case Styled(_, _, size) => size
  }

  lemma ParseSpan(s: string, buf: string)
    requires s != "" && !SpanAt(s).Plain?
    ensures SpanSize(SpanAt(s)) <= |s|
    ensures ParseFrom(s, buf) == Flush(buf) + SpanItems(SpanAt(s)) + ParseFrom(s[SpanSize(SpanAt(s))..], "")
  {
  }

  /** What the parser will have produced, from where it stands. */
  function Outlook(s: string, i: nat, buf: string, out: seq<Inline>): seq<Inline>
    requires i <= |s|
  {
    out + ParseFrom(s[i..], buf)
  }

  lemma AdvancePlain(s: string, i: nat, buf: string, out: seq<Inline>)
    requires i < |s| && SpanAt(s[i..]).Plain?
    ensures Outlook(s, i, buf, out) == Outlook(s, i + 1, buf + [s[i]], out)
  {
    assert s[i..][1..] == s[i + 1..];
  }

  lemma AdvanceSpan(s: string, i: nat, buf: string, out: seq<Inline>)
    requires i < |s| && !SpanAt(s[i..]).Plain?
    ensures var span := SpanAt(s[i..]);
            i + SpanSize(span) <= |s|
            && Outlook(s, i, buf, out) == Outlook(s, i + SpanSize(span), "", out + Flush(buf) + SpanItems(span))
  {
    var span := SpanAt(s[i..]);
    ParseSpan(s[i..], buf);
    assert s[i..][SpanSize(span)..] == s[i + SpanSize(span)..];
    Regroup(out, Flush(buf), SpanItems(span), ParseFrom(s[i + SpanSize(span)..], ""));
  }

  lemma AdvanceStart(s: string)
    ensures Outlook(s, 0, "", []) == Parse(s)
  {
    assert s[0..] == s;
  }

  lemma AdvanceEnd(s: string, buf: string, out: seq<Inline>)
    ensures Outlook(s, |s|, buf, out) == out + Flush(buf)
  {
    assert s[|s|..] == "";
  }

  /** One span of the parser's loop, its inner text parsed recursively. */
  method ReadSpan(span: Span, ghost bound: nat) returns (items: seq<Inline>)
    requires span.LinkSpan? ==> |span.link.caption| < bound
    requires span.Styled? ==> |span.inner| < bound
    ensures items == SpanItems(span)
    decreases bound, 0
  {
    match span
    case Plain => items := [];
    case CodeSpan(code) => items := [Run(code, {Code})];
    case LinkSpan(m) =>
      var content := ParseInline(m.caption);
      items := [Link(m.url, content)];
    case Styled(style, inner, _) =>
      var content := ParseInline(inner);
      items := ApplyStyle(content, style);
  }

  /** The parser as the source runs it: a cursor, a buffer of plain text and a growing result. */
  method ParseInline(s: string) returns (out: seq<Inline>)
    ensures out == Parse(s)
    decreases |s|, 1
  {
    out := [];
    var buf := "";
    var i := 0;
    AdvanceStart(s);
    while i < |s|
      invariant 0 <= i <= |s|
      invariant Outlook(s, i, buf, out) == Parse(s)
    {
      var span := SpanAt(s[i..]);
      if span.Plain? {
        AdvancePlain(s, i, buf, out);
        buf, i := buf + [s[i]], i + 1;
      } else {
        AdvanceSpan(s, i, buf, out);
        var items := ReadSpan(span, |s|);
        out, buf, i := out + Flush(buf) + items, "", i + SpanSize(span);
      }
    }
    AdvanceEnd(s, buf, out);
    out := out + Flush(buf);
  }

  // ----- the canonical lists -----

  const MARKUP: set<char> := {'`', '[', ']', '*', '_', '~'}

  predicate CleanText(t: string) {
    t != "" && forall k :: 0 <= k < |t| ==> t[k] !in MARKUP
  }

  predicate CanonicalRuns(items: seq<Inline>) {
    && (forall k :: 0 <= k < |items| ==> items[k].Run? && CleanText(items[k].text))
    && NoPlainPair(items)
  }

  predicate IsPlain(item: Inline) {
    item.Run? && item.styles == {}
  }

  /** Two unstyled runs in a row would be read back as one. */
  predicate NoPlainPair(items: seq<Inline>) {
    forall k :: 0 <= k < |items| - 1 ==> !(IsPlain(items[k]) && IsPlain(items[k + 1]))
  }

  predicate CanonicalItem(item: Inline) {
    match item
    case Run(t, _) => CleanText(t)
    case Link(href, content) => ')' !in href && CanonicalRuns(content)
  }

  predicate Canonical(items: seq<Inline>) {
    && (forall k :: 0 <= k < |items| ==> CanonicalItem(items[k]))
    && NoPlainPair(items)
  }

  // ----- parsing undoes printing -----

  lemma {:induction false} PlainRun(t: string, rest: string, buf: string)
    requires forall k :: 0 <= k < |t| ==> t[k] !in MARKUP
    ensures ParseFrom(t + rest, buf) == ParseFrom(rest, buf + t)
  {
    if t == "" {
      assert t + rest == rest && buf + t == buf;
    } else {
      assert (t + rest)[0] == t[0] && (t + rest)[1..] == t[1..] + rest;
      assert SpanAt(t + rest).Plain?;
      PlainRun(t[1..], rest, buf + [t[0]]);
      assert buf + [t[0]] + t[1..] == buf + t;
    }
  }

  lemma DelimClosed(inner: string, mark: string, rest: string)
    requires mark in ["**", "~~", "_"] && inner != "" && mark[0] !in inner
    ensures MatchDelim(mark + inner + mark + rest, mark) == Some(inner)
  {
    var s := mark + inner + mark + rest;
    assert s[|mark|..] == inner + mark + rest;
    IndexAfter(inner, mark, rest);
    assert s[|mark|..][..|inner|] == inner;
  }

  /** One style layer: a marked text is read as its inner text with that style added. */
  lemma StyleLayer(inner: string, mark: string, style: Style, rest: string, buf: string)
    requires (mark, style) in [("**", Bold), ("~~", Strike), ("_", Italic)]
    requires inner != "" && mark[0] !in inner
    ensures ParseFrom(mark + inner + mark + rest, buf)
         == Flush(buf) + ApplyStyle(Parse(inner), style) + ParseFrom(rest, "")
  {
    var s := mark + inner + mark + rest;
    DelimClosed(inner, mark, rest);
    assert s[0] == mark[0];
    assert mark <= s;
    assert SpanAt(s) == Styled(style, inner, 2 * |mark| + |inner|);
    assert s[2 * |mark| + |inner|..] == rest;
  }

  lemma WrapFree(t: string, mark: string, on: bool, c: char)
    requires c !in t && (on ==> c !in mark)
    ensures c !in Wrap(t, mark, on)
  {
  }

  /** The marks of the styles that are on are the only ones that appear. */
  lemma StyleWrapFree(t: string, styles: set<Style>, c: char)
    requires c !in t
    requires c == '`' ==> Code !in styles
    requires c == '~' ==> Strike !in styles
    requires c == '_' ==> Italic !in styles
    requires c == '*' ==> Bold !in styles
    ensures c !in StyleWrap(t, styles)
  {
    var code := Wrap(t, "`", Code in styles);
    var strike := Wrap(code, "~~", Strike in styles);
    WrapFree(t, "`", Code in styles, c);
    WrapFree(code, "~~", Strike in styles, c);
    WrapFree(strike, "_", Italic in styles, c);
    WrapFree(Wrap(strike, "_", Italic in styles), "**", Bold in styles, c);
  }

  /** Peels the outermost style off a printed run. */
  lemma Outermost(t: string, styles: set<Style>) returns (mark: string, style: Style)
    requires CleanText(t) && styles != {} && styles != {Code}
    ensures (mark, style) in [("**", Bold), ("~~", Strike), ("_", Italic)] && style in styles
    ensures StyleWrap(t, styles) == mark + StyleWrap(t, styles - {style}) + mark
    ensures StyleWrap(t, styles - {style}) != "" && mark[0] !in StyleWrap(t, styles - {style})
  {
    if Bold in styles {
      mark, style := "**", Bold;
    } else if Italic in styles {
      mark, style := "_", Italic;
    } else {
      assert Strike in styles by {
        assert forall s :: s in styles ==> s == Strike || s == Code;
      }
      mark, style := "~~", Strike;
    }
    assert mark[0] !in t by { assert mark[0] in MARKUP; }
    StyleWrapFree(t, styles - {style}, mark[0]);
  }

  /** A styled run, in whatever combination of styles, is read back as itself. */
  lemma {:induction false} StyledRun(t: string, styles: set<Style>, rest: string, buf: string)
    requires CleanText(t) && styles != {}
    ensures ParseFrom(StyleWrap(t, styles) + rest, buf) == Flush(buf) + [Run(t, styles)] + ParseFrom(rest, "")
    decreases styles, 0
  {
    if styles == {Code} {
      CodeRun(t, styles, rest, buf);
    } else {
      var mark, style := Outermost(t, styles);
      var lower := styles - {style};
      ParsedAlone(t, lower);
      LayerRun(t, lower, mark, style, rest, buf);
      assert lower + {style} == styles;
    }
  }

  lemma LayerRun(t: string, lower: set<Style>, mark: string, style: Style, rest: string, buf: string)
    requires (mark, style) in [("**", Bold), ("~~", Strike), ("_", Italic)]
    requires StyleWrap(t, lower) != "" && mark[0] !in StyleWrap(t, lower) && Parse(StyleWrap(t, lower)) == [Run(t, lower)]
    ensures ParseFrom(mark + StyleWrap(t, lower) + mark + rest, buf)
         == Flush(buf) + [Run(t, lower + {style})] + ParseFrom(rest, "")
  {
    StyleLayer(StyleWrap(t, lower), mark, style, rest, buf);
    assert ApplyStyle([Run(t, lower)], style) == [Run(t, lower + {style})];
  }

  /** The printed form of one run parses to that run. */
  lemma {:induction false} ParsedAlone(t: string, styles: set<Style>)
    requires CleanText(t)
    ensures Parse(StyleWrap(t, styles)) == [Run(t, styles)]
    decreases styles, 1
  {
    assert StyleWrap(t, styles) + "" == StyleWrap(t, styles);
    if styles == {} {
      PlainRun(t, "", "");
      assert "" + t == t;
    } else {
      StyledRun(t, styles, "", "");
    }
  }

  lemma CodeRun(t: string, styles: set<Style>, rest: string, buf: string)
    requires CleanText(t) && styles == {Code}
    ensures ParseFrom(StyleWrap(t, styles) + rest, buf) == Flush(buf) + [Run(t, styles)] + ParseFrom(rest, "")
  {
    assert StyleWrap(t, styles) == "`" + t + "`";
    CodeSpanAt(t, rest);
    ParseSpan("`" + t + "`" + rest, buf);
  }

  lemma CodeSpanAt(t: string, rest: string)
    requires '`' !in t
    ensures var s := "`" + t + "`" + rest; SpanAt(s) == CodeSpan(t) && s[|t| + 2..] == rest
  {
    var s := "`" + t + "`" + rest;
    assert s[1..] == t + "`" + rest;
    IndexAfter(t, "`", rest);
    assert s[1..][..|t|] == t;
  }

  lemma {:induction false} LabelFree(items: seq<Inline>)
    requires forall k :: 0 <= k < |items| ==> items[k].Run? && ']' !in items[k].text
    ensures ']' !in Print(items)
  {
    if items != [] {
      StyleWrapFree(items[0].text, items[0].styles, ']');
      LabelFree(items[1..]);
    }
  }

  lemma MatchLinkAt(caption: string, href: string, rest: string)
    requires ')' !in href && ']' !in caption
    ensures MatchLink("[" + caption + "]" + ("(" + href + ")" + rest)) == Some(LinkMatch(caption, href, |caption| + 4 + |href|))
  {
    var s := "[" + caption + "]" + ("(" + href + ")" + rest);
    IndexAfter("[" + caption, "]", "(" + href + ")" + rest);
    assert s[|caption| + 2] == '(';
    assert s[|caption| + 3..] == href + ")" + rest;
    IndexAfter(href, ")", rest);
    assert s[1..|caption| + 1] == caption;
    assert (href + ")" + rest)[..|href|] == href;
  }

  lemma LinkSpanAt(caption: string, href: string, rest: string)
    requires ')' !in href && ']' !in caption
    ensures var s := "[" + caption + "](" + href + ")" + rest;
            SpanAt(s) == LinkSpan(LinkMatch(caption, href, |caption| + 4 + |href|)) && s[|caption| + 4 + |href|..] == rest
  {
    var s := "[" + caption + "](" + href + ")" + rest;
    assert s == "[" + caption + "]" + ("(" + href + ")" + rest);
    assert s[0] == '[';
    MatchLinkAt(caption, href, rest);
  }

  lemma LinkItem(href: string, content: seq<Inline>, rest: string, buf: string)
    requires ')' !in href && CanonicalRuns(content)
    ensures ParseFrom(PrintItem(Link(href, content)) + rest, buf)
         == Flush(buf) + [Link(href, Parse(Print(content)))] + ParseFrom(rest, "")
  {
    LabelFree(content);
    LinkSpanAt(Print(content), href, rest);
    ParseSpan(PrintItem(Link(href, content)) + rest, buf);
  }

  lemma SpanItem(item: Inline, rest: string, buf: string)
    requires CanonicalItem(item) && !IsPlain(item)
    requires item.Link? ==> Parse(Print(item.content)) == item.content
    ensures ParseFrom(PrintItem(item) + rest, buf) == Flush(buf) + [item] + ParseFrom(rest, "")
  {
    if item.Run? {
      StyledRun(item.text, item.styles, rest, buf);
    } else {
      LinkItem(item.href, item.content, rest, buf);
    }
  }

  lemma PlainItem(item: Inline, rest: string)
    requires CanonicalItem(item) && IsPlain(item)
    ensures ParseFrom(PrintItem(item) + rest, "") == ParseFrom(rest, item.text)
  {
    PlainRun(item.text, rest, "");
    assert "" + item.text == item.text;
  }

  lemma CanonicalTail(items: seq<Inline>)
    requires Canonical(items) && items != []
    ensures items == [items[0]] + items[1..]
    ensures CanonicalItem(items[0]) && Canonical(items[1..])
    ensures IsPlain(items[0]) ==> items[1..] == [] || !IsPlain(items[1..][0])
    ensures items[0].Link? ==> Canonical(items[0].content)
  {
    assert forall k :: 0 <= k < |items| - 1 ==> items[1..][k] == items[k + 1];
  }

  lemma PlainFirst(items: seq<Inline>)
    requires Canonical(items) && items != [] && IsPlain(items[0])
    ensures ParseFrom(Print(items), "") == ParseFrom(Print(items[1..]), items[0].text)
  {
    PlainItem(items[0], Print(items[1..]));
  }

  lemma SpanFirst(items: seq<Inline>, buf: string)
    requires Canonical(items) && items != [] && !IsPlain(items[0])
    requires items[0].Link? ==> Parse(Print(items[0].content)) == items[0].content
    ensures ParseFrom(Print(items), buf) == Flush(buf) + [items[0]] + ParseFrom(Print(items[1..]), "")
  {
    SpanItem(items[0], Print(items[1..]), buf);
  }

  /** The items are read back, after the plain run in the buffer. */
  predicate ReadsBack(items: seq<Inline>, buf: string) {
    ParseFrom(Print(items), buf) == Flush(buf) + items
  }

  lemma PlainThenRest(items: seq<Inline>)
    requires Canonical(items) && items != [] && IsPlain(items[0]) && ReadsBack(items[1..], items[0].text)
    ensures ReadsBack(items, "")
  {
    PlainFirst(items);
    assert [items[0]] + items[1..] == items;
  }

  lemma ReadsBackAlone(items: seq<Inline>)
    requires ReadsBack(items, "")
    ensures Parse(Print(items)) == items
  {
    assert Flush("") + items == items;
  }

  lemma Glue(a: seq<Inline>, head: Inline, rest: seq<Inline>, items: seq<Inline>)
    requires items == [head] + rest
    ensures a + [head] + rest == a + items
  {
  }

  lemma SpanThenRest(items: seq<Inline>, buf: string)
    requires Canonical(items) && items != [] && !IsPlain(items[0]) && ReadsBack(items[1..], "")
    requires items[0].Link? ==> ReadsBack(items[0].content, "")
    ensures ReadsBack(items, buf)
  {
    if items[0].Link? {
      ReadsBackAlone(items[0].content);
    }
    SpanFirst(items, buf);
    ReadsBackAlone(items[1..]);
    Glue(Flush(buf), items[0], items[1..], items);
  }

  /** The plain run in the buffer and a list that does not begin with another one are both kept. */
  lemma {:induction false} ParsePrint(items: seq<Inline>, buf: string)
    requires Canonical(items)
    requires buf == "" || items == [] || !IsPlain(items[0])
    ensures ReadsBack(items, buf)
    decreases items
  {
    if items != [] {
      var head, rest := items[0], items[1..];
      CanonicalTail(items);
      if IsPlain(head) {
        ParsePrint(rest, head.text);
        PlainThenRest(items);
      } else {
        if head.Link? {
          ParsePrint(head.content, "");
        }
        ParsePrint(rest, "");
        SpanThenRest(items, buf);
      }
    }
  }

  /** Inline round trip: parsing undoes printing on every canonical list. */
  lemma InlineRoundTrip(items: seq<Inline>)
    requires Canonical(items)
    ensures Parse(Print(items)) == items
  {
    ParsePrint(items, "");
    ReadsBackAlone(items);
  }
}
