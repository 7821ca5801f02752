/** The characters the compiler emits (internal/search/fts5.go) and how FTS5 reads them: token by token,
    each value by itself. */
module SearchSpelling {
  import opened Text
  import opened SearchQuery
  import opened SearchGrammar

  predicate NoParens(ls: seq<Lexeme>) {
    Left !in ls && Right !in ls
  }

  // ----- one value -----

  predicate IsBlankOrClose(c: char) {
    c == ' ' || c == ')'
  }

  /** One character of a quoted string: itself, or two quotes for one. */
  lemma UnquoteChar(c: char, u: string)
    requires c != '\0'
    ensures var q := Unquote(u);
            Unquote((if c == '"' then "\"\"" else [c]) + u)
            == if q.Unclosed? then Unclosed else Closed([c] + q.text, q.rest)
  {
    var t := (if c == '"' then "\"\"" else [c]) + u;
    assert t[if c == '"' then 2 else 1..] == u;
    assert t[0] == c;
  }

  lemma {:induction false} UnquoteDoubled(s: string, rest: string)
    requires rest == "" || rest[0] != '"'
    ensures Unquote(DoubleQuotes(s) + ("\"" + rest)) == if '\0' in s then Unclosed else Closed(s, rest)
  {
    var closing := "\"" + rest;
    if s == "" {
      assert closing[1..] == rest;
      assert DoubleQuotes(s) + closing == closing;
    } else {
      UnquoteDoubled(s[1..], rest);
      var first, u := if s[0] == '"' then "\"\"" else [s[0]], DoubleQuotes(s[1..]) + closing;
      Assoc(first, DoubleQuotes(s[1..]), closing);
      assert s == [s[0]] + s[1..];
      if s[0] == '\0' {
        assert (first + u)[0] == '\0';
      } else {
        UnquoteChar(s[0], u);
      }
    }
  }

  lemma {:induction false} NoQuotes(s: string)
    requires '"' !in s
    ensures DoubleQuotes(s) == s
  {
    if s != "" {
      NoQuotes(s[1..]);
    }
  }

  predicate NeedsQuotes(c: char) {
    c in {' ', '(', ')', '"', '#', '@'}
  }

  /** The compiler puts the text in quotes. */
  predicate GetsQuotes(text: string) {
    exists c :: c in text && NeedsQuotes(c)
  }

  lemma EmittedValue(text: string)
    ensures var w := ColumnValue(QuoteIfNeeded(text));
            if GetsQuotes(text) then w == "\"" + DoubleQuotes(text) + "\"" else w == text && '"' !in text
  {
    if GetsQuotes(text) {
      if !exists c :: c in text && c in {' ', '(', ')', '"'} {
        NoQuotes(text);
      }
    } else {
      forall c | c in text ensures c !in {' ', '(', ')', '"', '#', '@'} {
        assert !NeedsQuotes(c);
      }
      assert text != "" ==> text[0] in text;
    }
  }

  /** How FTS5 reads the text of a term as the compiler emits it: one string if quoted, nothing if a NUL
      keeps it from being closed, else its characters. */
  function TextLexed(text: string): Lexed {
    if !GetsQuotes(text) then Lex(text)
    else if '\0' in text then Lexed([Junk], false)
    else Lexed([Str(text)], true)
  }

  lemma QuoteOpens(u: string)
    ensures var q := Unquote(u);
            Lex("\"" + u) == if q.Unclosed? then Lexed([Junk], false) else Then(Lexed([Str(q.text)], true), Lex(q.rest))
  {
    assert ("\"" + u)[0] == '"' && ("\"" + u)[1..] == u;
  }

  lemma QuotedReads(text: string, rest: string)
    requires rest == "" || rest[0] != '"'
    ensures Lex("\"" + (DoubleQuotes(text) + ("\"" + rest)))
         == if '\0' in text then Lexed([Junk], false) else Then(Lexed([Str(text)], true), Lex(rest))
  {
    UnquoteDoubled(text, rest);
    QuoteOpens(DoubleQuotes(text) + ("\"" + rest));
  }

  lemma QuotedValue(text: string, rest: string)
    requires GetsQuotes(text)
    ensures ColumnValue(QuoteIfNeeded(text)) + rest == "\"" + (DoubleQuotes(text) + ("\"" + rest))
  {
    EmittedValue(text);
    QuoteAround(DoubleQuotes(text), rest);
  }

  lemma QuoteAround(s: string, rest: string)
    ensures "\"" + s + "\"" + rest == "\"" + (s + ("\"" + rest))
  {
    Regroup("\"", s, "\"", rest);
    Assoc(s, "\"", rest);
  }

  /** The emitted value is read the same whatever the compiler puts behind it. */
  lemma ValueReads(text: string, rest: string)
    requires rest == "" || IsBlankOrClose(rest[0])
    ensures Lex(ColumnValue(QuoteIfNeeded(text)) + rest) == Then(TextLexed(text), Lex(rest))
  {
    if GetsQuotes(text) {
      QuotedValue(text, rest);
      QuotedReads(text, rest);
    } else {
      EmittedValue(text);
      LexApart(text, rest);
    }
  }

  lemma {:induction false} LexNoParens(s: string)
    requires '(' !in s && ')' !in s && '"' !in s
    ensures NoParens(Lex(s).ls)
    decreases |s|
  {
    if s != "" && s[0] != '\0' {
      assert s[0] in s;
      LexNoParens(s[if BareChar(s[0]) then WordLength(s) else 1..]);
    }
  }

  lemma TextNoParens(text: string)
    ensures NoParens(TextLexed(text).ls)
  {
    if !GetsQuotes(text) {
      forall c | c in text ensures c !in {'(', ')', '"'} {
        assert !NeedsQuotes(c);
      }
      LexNoParens(text);
    }
  }

  // ----- tokens -----

  ghost predicate FromText(v: string) {
    exists text :: v == QuoteIfNeeded(text)
  }

  /** A token as FTS5 reads it. */
  function TokLexed(t: Tok): Lexed {
    match t
    case Atom(col, w) => Then(Lexed([Str(ColumnName(col)), Colon], true), Lex(w))
    case And => Lexed([AndOp], true)
    case Or => Lexed([OrOp], true)
    case Not => Lexed([NotOp], true)
    case Gap => NOTHING
    case Open => Lexed([Left], true)
    case Close => Lexed([Right], true)
  }

  function ToksLexed(ts: seq<Tok>): Lexed {
    if ts == [] then NOTHING else Then(TokLexed(ts[0]), ToksLexed(ts[1..]))
  }

  lemma OneTokLexed(t: Tok)
    ensures ToksLexed([t]) == TokLexed(t)
  {
    assert [t][1..] == [];
    ThenNothing(TokLexed(t));
  }

  lemma {:induction false} ToksAppend(a: seq<Tok>, b: seq<Tok>)
    ensures ToksLexed(a + b) == Then(ToksLexed(a), ToksLexed(b))
  {
    if a == [] {
      assert a + b == b;
    } else {
      assert (a + b)[0] == a[0] && (a + b)[1..] == a[1..] + b;
      ToksAppend(a[1..], b);
      ThenAssoc(TokLexed(a[0]), ToksLexed(a[1..]), ToksLexed(b));
    }
  }

  lemma WordLexed(w: string, rest: string)
    requires w != "" && (forall k :: 0 <= k < |w| ==> BareChar(w[k])) && (rest == "" || !BareChar(rest[0]))
    ensures Lex(w + rest) == Then(Lexed([LexWord(w)], true), Lex(rest))
  {
    var s := w + rest;
    WordApart(w, rest);
    assert WordLength(w) == |w|;
    assert s[..|w|] == w && s[|w|..] == rest;
  }

  lemma SpacedWordLexed(w: string)
    requires w != "" && (forall k :: 0 <= k < |w| ==> BareChar(w[k]))
    ensures Lex(w + " ") == Lexed([LexWord(w)], true)
  {
    assert " "[1..] == "";
    assert Lex(" ") == NOTHING;
    WordLexed(w, " ");
  }

  lemma BlankLexed(s: string)
    ensures Lex(" " + s) == Lex(s)
  {
    assert (" " + s)[0] == ' ' && (" " + s)[1..] == s;
  }

  lemma OperatorLexed(t: Tok, w: string)
    requires w != "" && (forall k :: 0 <= k < |w| ==> BareChar(w[k]))
    requires SpellTok(t) == " " + (w + " ")
    ensures Lex(SpellTok(t)) == Lexed([LexWord(w)], true)
  {
    SpacedWordLexed(w);
    BlankLexed(w + " ");
  }

  lemma MarkLexed(t: Tok)
    requires t == Gap || t == Open || t == Close
    ensures Lex(SpellTok(t)) == TokLexed(t)
  {
    assert SpellTok(t)[1..] == "";
  }

  lemma PlainTokLexed(t: Tok)
    requires !t.Atom?
    ensures Lex(SpellTok(t)) == TokLexed(t)
  {
    match t {
      case And => OperatorLexed(t, "AND");
      case Or => OperatorLexed(t, "OR");
      case Not => SpacedWordLexed("NOT"); assert SpellTok(t) == "NOT" + " ";
      case _ => MarkLexed(t);
    }
  }

  lemma ColonLexed(s: string)
    ensures Lex(":" + s) == Then(Lexed([Colon], true), Lex(s)) && (":" + s)[0] == ':'
  {
    assert (":" + s)[1..] == s;
  }

  lemma NameLexed(name: string, s: string)
    requires name != "" && (forall k :: 0 <= k < |name| ==> BareChar(name[k])) && LexWord(name) == Str(name)
    ensures Lex(name + (":" + s)) == Then(Lexed([Str(name), Colon], true), Lex(s))
  {
    ColonLexed(s);
    WordLexed(name, ":" + s);
    ThenAssoc(Lexed([Str(name)], true), Lexed([Colon], true), Lex(s));
    assert Then(Lexed([Str(name)], true), Lexed([Colon], true)) == Lexed([Str(name), Colon], true);
  }

  lemma ColumnLexed(col: Column, s: string)
    ensures Lex(ColumnName(col) + ":" + s) == Then(Lexed([Str(ColumnName(col)), Colon], true), Lex(s))
  {
    Assoc(ColumnName(col), ":", s);
    NameLexed(ColumnName(col), s);
  }

  /** What a column clause reads as does not depend on what follows it. */
  lemma AtomReads(col: Column, v: string, rest: string)
    requires FromText(v) && (rest == "" || IsBlankOrClose(rest[0]))
    ensures Lex(SpellTok(Atom(col, ColumnValue(v))) + rest) == Then(TokLexed(Atom(col, ColumnValue(v))), Lex(rest))
  {
    var w := ColumnValue(v);
    ValueApart(v, rest);
    ColumnLexed(col, w + rest);
    Assoc(ColumnName(col) + ":", w, rest);
    ThenAssoc(Lexed([Str(ColumnName(col)), Colon], true), Lex(w), Lex(rest));
  }

  lemma ValueApart(v: string, rest: string)
    requires FromText(v) && (rest == "" || IsBlankOrClose(rest[0]))
    ensures Lex(ColumnValue(v) + rest) == Then(Lex(ColumnValue(v)), Lex(rest))
  {
    var text :| v == QuoteIfNeeded(text);
    ValueReads(text, rest);
    TextReads(text);
  }

  lemma TextReads(text: string)
    ensures Lex(ColumnValue(QuoteIfNeeded(text))) == TextLexed(text)
  {
    var w := ColumnValue(QuoteIfNeeded(text));
    ValueReads(text, "");
    assert w + "" == w;
    assert TextLexed(text).ls + [] == TextLexed(text).ls;
  }

  predicate MayFollow(ts: seq<Tok>) {
    ts == [] || ts[0] == And || ts[0] == Or || ts[0] == Gap || ts[0] == Close
  }

  ghost predicate FromValue(w: string) {
    exists v :: FromText(v) && w == ColumnValue(v)
  }

  /** Every column clause stands before an operator, a blank, a parenthesis or the end. */
  ghost predicate Spaced(ts: seq<Tok>) {
    ts == [] || (Spaced(ts[1..]) && (ts[0].Atom? ==> FromValue(ts[0].value) && MayFollow(ts[1..])))
  }

  lemma SpelledFirst(ts: seq<Tok>)
    requires MayFollow(ts)
    ensures Spell(ts) == "" || IsBlankOrClose(Spell(ts)[0])
  {
  }

  lemma PlainTokReads(t: Tok, rest: string)
    requires !t.Atom?
    ensures Lex(SpellTok(t) + rest) == Then(TokLexed(t), Lex(rest))
  {
    PlainTokLexed(t);
    LexApart(SpellTok(t), rest);
  }

  /** The emitted characters read as the tokens they spell. */
  lemma {:induction false} SpellingReads(ts: seq<Tok>)
    requires Spaced(ts)
    ensures Lex(Spell(ts)) == ToksLexed(ts)
  {
    if ts != [] {
      SpellingReads(ts[1..]);
      if ts[0].Atom? {
        var v :| FromText(v) && ts[0].value == ColumnValue(v);
        SpelledFirst(ts[1..]);
        AtomReads(ts[0].col, v, Spell(ts[1..]));
      } else {
        PlainTokReads(ts[0], Spell(ts[1..]));
      }
    }
  }

  lemma {:induction false} SpacedAppend(a: seq<Tok>, b: seq<Tok>)
    requires Spaced(a) && Spaced(b) && (MayFollow(b) || (a != [] && !a[|a| - 1].Atom?))
    ensures Spaced(a + b)
  {
    if a == [] {
      assert a + b == b;
    } else {
      assert (a + b)[0] == a[0] && (a + b)[1..] == a[1..] + b;
      if |a| > 1 {
        SpacedAppend(a[1..], b);
        assert (a[1..] + b)[0] == a[1];
      } else {
        assert a[1..] + b == b;
      }
    }
  }
}
