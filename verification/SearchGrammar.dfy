/** FTS5's reading of an expression (sections 3.1 to 3.7 of the SQLite FTS5 documentation), as far as the
    compiler can produce one: strings, prefix stars, column filters, implicit AND over NOT over AND over OR. */
module SearchGrammar {
  import opened Text

  // ----- characters -----

  /** The characters of a bareword: ASCII letters and digits, underscore, the substitute character and
      everything beyond ASCII. */
  predicate BareChar(c: char) {
    'a' <= c <= 'z' || 'A' <= c <= 'Z' || '0' <= c <= '9' || c == '_' || c == '\U{1a}' || c >= '\U{80}'
  }

  predicate IsSeparator(c: char) {
    c in {' ', '\t', '\n', '\r'}
  }

  datatype Lexeme = Str(text: string) | Colon | Minus | Star | AndOp | OrOp | NotOp | Left | Right | Junk

  /** What was read, and whether reading goes on after it. */
  datatype Lexed = Lexed(ls: seq<Lexeme>, more: bool)

  function Then(a: Lexed, b: Lexed): Lexed {
    if a.more then Lexed(a.ls + b.ls, b.more) else a
  }

  lemma ThenAssoc(a: Lexed, b: Lexed, c: Lexed)
    ensures Then(Then(a, b), c) == Then(a, Then(b, c))
  {
    Assoc(a.ls, b.ls, c.ls);
  }

  const NOTHING := Lexed([], true)

  lemma ThenNothing(a: Lexed)
    ensures Then(a, NOTHING) == a && Then(NOTHING, a) == a
  {
    assert a.ls + [] == a.ls && [] + a.ls == a.ls;
  }

  function WordLength(s: string): (n: nat)
    ensures n <= |s|
    ensures forall k :: 0 <= k < n ==> BareChar(s[k])
    ensures n < |s| ==> !BareChar(s[n])
  {
    if s == "" || !BareChar(s[0]) then 0 else 1 + WordLength(s[1..])
  }

  function LexWord(w: string): Lexeme {
    if w == "AND" then AndOp else if w == "OR" then OrOp else if w == "NOT" then NotOp else Str(w)
  }

  function LexChar(c: char): Lexed {
    if c == ':' then Lexed([Colon], true)
    else if c == '-' then Lexed([Minus], true)
    else if c == '*' then Lexed([Star], true)
    else if c == '(' then Lexed([Left], true)
    else if c == ')' then Lexed([Right], true)
    else Lexed([Junk], false)
  }

  datatype Quoted = Unclosed | Closed(text: string, rest: string)

  /** The inside of a quoted string and what follows it: a doubled quote stands for one, a single one
      ends the string. A NUL ends the expression, so the string is never closed. */
  function Unquote(s: string): (q: Quoted)
    ensures q.Closed? ==> |q.rest| < |s|
  {
    if s == "" || s[0] == '\0' then Unclosed
    else if s[0] == '"' && !("\"\"" <= s) then Closed("", s[1..])
    else
      var q := Unquote(s[if s[0] == '"' then 2 else 1..]);
      if q.Unclosed? then Unclosed else Closed([s[0]] + q.text, q.rest)
  }

  /** Reads up to the end, a NUL or an error. */
  function Lex(s: string): Lexed
    decreases |s|
  {
    if s == "" then NOTHING
    else if s[0] == '\0' then Lexed([], false)
    else if IsSeparator(s[0]) then Lex(s[1..])
    else if BareChar(s[0]) then
      var n := WordLength(s);
      Then(Lexed([LexWord(s[..n])], true), Lex(s[n..]))
    else if s[0] == '"' then
      var q := Unquote(s[1..]);
      if q.Unclosed? then Lexed([Junk], false) else Then(Lexed([Str(q.text)], true), Lex(q.rest))
    else Then(LexChar(s[0]), Lex(s[1..]))
  }

  /** No word runs from the one into the other. */
  predicate Apart(a: string, b: string) {
    a != "" && b != "" ==> !(BareChar(a[|a| - 1]) && BareChar(b[0]))
  }

  lemma {:induction false} WordApart(a: string, b: string)
    requires Apart(a, b) && a != "" && BareChar(a[0])
    ensures WordLength(a + b) == WordLength(a) > 0
  {
    if |a| == 1 {
      assert (a + b)[1..] == b;
    } else {
      assert (a + b)[1..] == a[1..] + b && (a[1..] + b)[0] == a[1];
      if BareChar(a[1]) {
        WordApart(a[1..], b);
      }
    }
  }

  /** Text without quotes is read the same whatever follows it. */
  lemma {:induction false} LexApart(a: string, b: string)
    requires '"' !in a && Apart(a, b)
    ensures Lex(a + b) == Then(Lex(a), Lex(b))
    decreases |a|
  {
    if a == "" {
      assert a + b == b;
    } else if a[0] != '\0' {
      var n := if BareChar(a[0]) then WordLength(a) else 1;
      if BareChar(a[0]) {
        WordApart(a, b);
      }
      assert (a + b)[..n] == a[..n] && (a + b)[n..] == a[n..] + b;
      LexApart(a[n..], b);
      if BareChar(a[0]) {
        ThenAssoc(Lexed([LexWord(a[..n])], true), Lex(a[n..]), Lex(b));
      } else if !IsSeparator(a[0]) {
        ThenAssoc(LexChar(a[0]), Lex(a[1..]), Lex(b));
      }
    }
  }

  // ----- phrases -----

  datatype Columns = Every | These(col: string) | AllBut(col: string)

  /** A string to be found in some columns, as a prefix if starred. */
  datatype Phrase = Phrase(cols: Columns, text: string, prefix: bool)

  /** The columns of fts_doc (internal/db/migrations/0001_init.sql). */
  const COLUMNS := {"title", "headings", "body", "code", "path"}

  function FoldCase(s: string): string {
    seq(|s|, k requires 0 <= k < |s| => if 'A' <= s[k] <= 'Z' then s[k] - 'A' + 'a' else s[k])
  }

  datatype Phrased = NoPhrase | Phrased(phrase: Phrase, rest: seq<Lexeme>)

  function Starred(cols: Columns, text: string, ts: seq<Lexeme>): (p: Phrased)
    ensures p.Phrased? && |p.rest| <= |ts|
  {
    if [Star] <= ts then Phrased(Phrase(cols, text, true), ts[1..]) else Phrased(Phrase(cols, text, false), ts)
  }

  /** A column name, a colon and a string. */
  predicate Filters(ts: seq<Lexeme>) {
    |ts| >= 3 && ts[0].Str? && ts[1] == Colon && ts[2].Str? && FoldCase(ts[0].text) in COLUMNS
  }

  function ReadPhrase(ts: seq<Lexeme>): (p: Phrased)
    ensures p.Phrased? ==> |p.rest| < |ts|
  {
    if Filters(ts) then Starred(These(FoldCase(ts[0].text)), ts[2].text, ts[3..])
    else if [Minus] <= ts && Filters(ts[1..]) then Starred(AllBut(FoldCase(ts[1].text)), ts[3].text, ts[4..])
    else if ts != [] && ts[0].Str? && !([Colon] <= ts[1..]) then Starred(Every, ts[0].text, ts[1..])
    else NoPhrase
  }

  predicate OpensPhrase(ts: seq<Lexeme>) {
    ts != [] && (ts[0].Str? || ts[0] == Minus)
  }

  // ----- the grammar -----

  datatype Fts = Leaf(phrase: Phrase) | Both(l: Fts, r: Fts) | AnyOf(l: Fts, r: Fts) | Without(l: Fts, r: Fts)

  /** Whether a row matches, given which phrases match it. */
  function Eval(e: Fts, row: Phrase -> bool): bool {
    match e
    case Leaf(p) => row(p)
    case Both(l, r) => Eval(l, row) && Eval(r, row)
    case AnyOf(l, r) => Eval(l, row) || Eval(r, row)
    case Without(l, r) => Eval(l, row) && !Eval(r, row)
  }

  datatype Parsed = Fail | Got(e: Fts, rest: seq<Lexeme>)

  /** Phrases that follow one another are all asked for. */
  function Implicit(e: Fts, ts: seq<Lexeme>): (p: Parsed)
    ensures p.Got? ==> |p.rest| <= |ts|
    decreases |ts|
  {
    if !OpensPhrase(ts) then Got(e, ts)
    else
      var p := ReadPhrase(ts);
      if p.NoPhrase? then Fail else Implicit(Both(e, Leaf(p.phrase)), p.rest)
  }

  function Primary(ts: seq<Lexeme>): (p: Parsed)
    ensures p.Got? ==> |p.rest| < |ts|
    decreases |ts|, 0
  {
    if OpensPhrase(ts) then
      var p := ReadPhrase(ts);
      if p.NoPhrase? then Fail else Implicit(Leaf(p.phrase), p.rest)
    else if [Left] <= ts then
      var p := OrExpr(ts[1..]);
      if p.Got? && [Right] <= p.rest then Got(p.e, p.rest[1..]) else Fail
    else Fail
  }

  function NotTail(e: Fts, ts: seq<Lexeme>): (p: Parsed)
    ensures p.Got? ==> |p.rest| <= |ts|
    decreases |ts|, 1
  {
    if ts == [] || ts[0] != NotOp then Got(e, ts)
    else
      var p := Primary(ts[1..]);
      if p.Fail? then Fail else NotTail(Without(e, p.e), p.rest)
  }

  function NotExpr(ts: seq<Lexeme>): (p: Parsed)
    ensures p.Got? ==> |p.rest| < |ts|
    decreases |ts|, 2
  {
    var p := Primary(ts);
    if p.Fail? then Fail else NotTail(p.e, p.rest)
  }

  function AndTail(e: Fts, ts: seq<Lexeme>): (p: Parsed)
    ensures p.Got? ==> |p.rest| <= |ts|
    decreases |ts|, 3
  {
    if ts == [] || ts[0] != AndOp then Got(e, ts)
    else
      var p := NotExpr(ts[1..]);
      if p.Fail? then Fail else AndTail(Both(e, p.e), p.rest)
  }

  function AndExpr(ts: seq<Lexeme>): (p: Parsed)
    ensures p.Got? ==> |p.rest| < |ts|
    decreases |ts|, 4
  {
    var p := NotExpr(ts);
    if p.Fail? then Fail else AndTail(p.e, p.rest)
  }

  function OrMore(e: Fts, ts: seq<Lexeme>): (p: Parsed)
    ensures p.Got? ==> |p.rest| <= |ts|
    decreases |ts|, 5
  {
    if ts == [] || ts[0] != OrOp then Got(e, ts)
    else
      var p := AndExpr(ts[1..]);
      if p.Fail? then Fail else OrMore(AnyOf(e, p.e), p.rest)
  }

  function OrExpr(ts: seq<Lexeme>): (p: Parsed)
    ensures p.Got? ==> |p.rest| < |ts|
    decreases |ts|, 6
  {
    var p := AndExpr(ts);
    if p.Fail? then Fail else OrMore(p.e, p.rest)
  }

  /** FTS5's reading of an expression; none if it rejects it. */
  function ParseFts(s: string): Option<Fts> {
    var p := OrExpr(Lex(s).ls);
    if p.Got? && p.rest == [] then Some(p.e) else None
  }

  // ----- the same, one operand at a time -----

  function Conjoin(acc: Option<Fts>, e: Fts): Fts {
    if acc.None? then e else Both(acc.value, e)
  }

  function Disjoin(acc: Option<Fts>, e: Fts): Fts {
    if acc.None? then e else AnyOf(acc.value, e)
  }

  /** What has been read up to an operand: alternatives, conjuncts of the current one, and what the
      operand is taken away from. */
  datatype Before = Before(alts: Option<Fts>, conj: Option<Fts>, minus: Option<Fts>)

  /** What has been read up to the end of an operand. */
  datatype After = After(alts: Option<Fts>, conj: Option<Fts>, cur: Fts)

  const START := Before(None, None, None)

  function Apply(b: Before, e: Fts): After {
    After(b.alts, b.conj, if b.minus.None? then e else Without(b.minus.value, e))
  }

  function Whole(a: After): Fts {
    Disjoin(a.alts, Conjoin(a.conj, a.cur))
  }

  predicate IsOp(x: Lexeme) {
    x == AndOp || x == OrOp || x == NotOp
  }

  function AfterOp(op: Lexeme, a: After): Before
    requires IsOp(op)
  {
    if op == NotOp then Before(a.alts, a.conj, Some(a.cur))
    else if op == AndOp then Before(a.alts, Some(Conjoin(a.conj, a.cur)), None)
    else Before(Some(Whole(a)), None, None)
  }

  /** Reads on after an operand. */
  function Continue(a: After, ts: seq<Lexeme>): Parsed {
    var p := NotTail(a.cur, ts);
    if p.Fail? then Fail
    else
      var q := AndTail(Conjoin(a.conj, p.e), p.rest);
      if q.Fail? then Fail else OrMore(Disjoin(a.alts, q.e), q.rest)
  }

  /** Reads an operand and on. */
  function Enter(b: Before, ts: seq<Lexeme>): Parsed {
    var p := Primary(ts);
    if p.Fail? then Fail else Continue(Apply(b, p.e), p.rest)
  }

  lemma OrExprEnters(ts: seq<Lexeme>)
    ensures OrExpr(ts) == Enter(START, ts)
  {
    var p := Primary(ts);
    if p.Got? {
      assert NotExpr(ts) == NotTail(p.e, p.rest);
      assert Apply(START, p.e) == After(None, None, p.e);
    } else {
      assert NotExpr(ts) == Fail;
    }
  }

  lemma ContinueEnds(a: After, ts: seq<Lexeme>)
    requires ts == [] || !IsOp(ts[0])
    ensures Continue(a, ts) == Got(Whole(a), ts)
  {
  }

  lemma ContinueNot(a: After, ts: seq<Lexeme>)
    ensures Continue(a, [NotOp] + ts) == Enter(AfterOp(NotOp, a), ts)
  {
    assert ([NotOp] + ts)[1..] == ts;
  }

  lemma ContinueAnd(a: After, ts: seq<Lexeme>)
    ensures Continue(a, [AndOp] + ts) == Enter(AfterOp(AndOp, a), ts)
  {
    var all, p := [AndOp] + ts, NotExpr(ts);
    assert all[1..] == ts;
    assert NotTail(a.cur, all) == Got(a.cur, all);
    var e := Conjoin(a.conj, a.cur);
    assert AndTail(e, all) == if p.Fail? then Fail else AndTail(Both(e, p.e), p.rest);
  }

  lemma ContinueOr(a: After, ts: seq<Lexeme>)
    ensures Continue(a, [OrOp] + ts) == Enter(AfterOp(OrOp, a), ts)
  {
    var all, e, p := [OrOp] + ts, Conjoin(a.conj, a.cur), AndExpr(ts);
    assert all[1..] == ts;
    assert NotTail(a.cur, all) == Got(a.cur, all);
    assert AndTail(e, all) == Got(e, all);
    assert OrMore(Whole(a), all) == if p.Fail? then Fail else OrMore(AnyOf(Whole(a), p.e), p.rest);
    var q := Primary(ts);
    assert NotExpr(ts) == if q.Fail? then Fail else NotTail(q.e, q.rest);
  }

  lemma ContinueOp(op: Lexeme, a: After, ts: seq<Lexeme>)
    requires IsOp(op)
    ensures Continue(a, [op] + ts) == Enter(AfterOp(op, a), ts)
  {
    match op {
      case NotOp => ContinueNot(a, ts);
      case AndOp => ContinueAnd(a, ts);
      case OrOp => ContinueOr(a, ts);
    }
  }
}
