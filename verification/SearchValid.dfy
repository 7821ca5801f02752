/** When a compiled query is a valid FTS5 expression (internal/search/fts5.go): the string the compiler
    emits, read by FTS5's rules, against a condition on each value. */
module SearchValid {
  import opened Text
  import opened SearchQuery
  import opened SearchGrammar
  import opened SearchSpelling

  // ----- one value -----

  /** A stretch that is an expression wherever an operand may stand: phrases, one after another or
      with an operator between. */
  predicate Chain(ls: seq<Lexeme>)
    decreases |ls|, 1
  {
    var p := ReadPhrase(ls);
    p.Phrased? && Onward(p.rest)
  }

  predicate Onward(ls: seq<Lexeme>)
    decreases |ls|, 2
  {
    ls == [] || if IsOp(ls[0]) then Chain(ls[1..]) else Chain(ls)
  }

  /** What has been read after such a stretch. */
  function Chained(b: Before, ls: seq<Lexeme>): After
    requires Chain(ls)
    decreases |ls|, 1
  {
    var p := ReadPhrase(ls);
    Strung(b, Leaf(p.phrase), p.rest)
  }

  function Strung(b: Before, e: Fts, ls: seq<Lexeme>): After
    requires Onward(ls)
    decreases |ls|, 2
  {
    if ls == [] then Apply(b, e)
    else if IsOp(ls[0]) then Chained(AfterOp(ls[0], Apply(b, e)), ls[1..])
    else
      assert Chain(ls);
      var p := ReadPhrase(ls);
      Strung(b, Both(e, Leaf(p.phrase)), p.rest)
  }

  /** What may follow a value. */
  predicate Halts(ts: seq<Lexeme>) {
    ts == [] || IsOp(ts[0]) || ts[0] == Right
  }

  /** Nothing read from here can become a whole expression. */
  predicate Stuck(p: Parsed) {
    p.Fail? || !Halts(p.rest)
  }

  function ImplicitOn(b: Before, e: Fts, ts: seq<Lexeme>): Parsed {
    var p := Implicit(e, ts);
    if p.Fail? then Fail else Continue(Apply(b, p.e), p.rest)
  }

  lemma FiltersApart(ls: seq<Lexeme>, rest: seq<Lexeme>)
    requires Halts(rest)
    ensures Filters(ls + rest) <==> Filters(ls)
  {
    var ts := ls + rest;
    assert forall k :: 0 <= k < |ls| ==> ts[k] == ls[k];
    assert |ts| > |ls| ==> ts[|ls|] == rest[0];
  }

  lemma StarredApart(cols: Columns, text: string, ls: seq<Lexeme>, rest: seq<Lexeme>)
    requires Halts(rest)
    ensures var p := Starred(cols, text, ls);
            Starred(cols, text, ls + rest) == Phrased(p.phrase, p.rest + rest)
  {
    var ts := ls + rest;
    assert ls == [] ==> ts == rest;
    assert ls != [] ==> ts[0] == ls[0] && ts[1..] == ls[1..] + rest;
  }

  /** A phrase ends before an operator or a closing parenthesis. */
  lemma PhraseApart(ls: seq<Lexeme>, rest: seq<Lexeme>)
    requires Halts(rest)
    ensures var p := ReadPhrase(ls);
            ReadPhrase(ls + rest) == if p.NoPhrase? then NoPhrase else Phrased(p.phrase, p.rest + rest)
  {
    var ts := ls + rest;
    FiltersApart(ls, rest);
    if ls == [] {
      assert ts == rest;
    } else {
      assert ts[0] == ls[0] && ts[1..] == ls[1..] + rest;
      FiltersApart(ls[1..], rest);
      if Filters(ls) {
        assert ts[3..] == ls[3..] + rest;
        StarredApart(These(FoldCase(ls[0].text)), ls[2].text, ls[3..], rest);
      } else if [Minus] <= ls && Filters(ls[1..]) {
        assert ts[4..] == ls[4..] + rest;
        StarredApart(AllBut(FoldCase(ls[1].text)), ls[3].text, ls[4..], rest);
      } else if ls[0].Str? {
        assert [Colon] <= ts[1..] <==> [Colon] <= ls[1..];
        StarredApart(Every, ls[0].text, ls[1..], rest);
      }
    }
  }

  lemma {:induction false} ChainEnters(b: Before, ls: seq<Lexeme>, rest: seq<Lexeme>)
    requires Chain(ls) && Halts(rest)
    ensures Enter(b, ls + rest) == Continue(Chained(b, ls), rest)
    decreases |ls|, 1
  {
    var p := ReadPhrase(ls);
    PhraseApart(ls, rest);
    assert OpensPhrase(ls + rest);
    StrungOn(b, Leaf(p.phrase), p.rest, rest);
  }

  lemma {:induction false} StrungOn(b: Before, e: Fts, ls: seq<Lexeme>, rest: seq<Lexeme>)
    requires Onward(ls) && Halts(rest)
    ensures ImplicitOn(b, e, ls + rest) == Continue(Strung(b, e, ls), rest)
    decreases |ls|, 2
  {
    var ts := ls + rest;
    if ls == [] {
      assert ts == rest;
    } else if IsOp(ls[0]) {
      assert ts == [ls[0]] + (ls[1..] + rest);
      ContinueOp(ls[0], Apply(b, e), ls[1..] + rest);
      ChainEnters(AfterOp(ls[0], Apply(b, e)), ls[1..], rest);
    } else {
      var p := ReadPhrase(ls);
      PhraseApart(ls, rest);
      assert OpensPhrase(ts);
      StrungOn(b, Both(e, Leaf(p.phrase)), p.rest, rest);
    }
  }

  lemma PhraseLeavesNoParens(ls: seq<Lexeme>)
    requires NoParens(ls) && ReadPhrase(ls).Phrased?
    ensures NoParens(ReadPhrase(ls).rest)
  {
  }

  lemma {:induction false} BrokenSticks(b: Before, ls: seq<Lexeme>, rest: seq<Lexeme>)
    requires !Chain(ls) && NoParens(ls) && Halts(rest)
    ensures Stuck(Enter(b, ls + rest))
    decreases |ls|, 1
  {
    var p, ts := ReadPhrase(ls), ls + rest;
    PhraseApart(ls, rest);
    if p.NoPhrase? {
      assert ls == [] ==> ts == rest;
      assert Primary(ts) == Fail;
    } else {
      assert OpensPhrase(ts);
      PhraseLeavesNoParens(ls);
      BrokenOn(b, Leaf(p.phrase), p.rest, rest);
    }
  }

  lemma {:induction false} BrokenOn(b: Before, e: Fts, ls: seq<Lexeme>, rest: seq<Lexeme>)
    requires !Onward(ls) && NoParens(ls) && Halts(rest)
    ensures Stuck(ImplicitOn(b, e, ls + rest))
    decreases |ls|, 2
  {
    var ts := ls + rest;
    if IsOp(ls[0]) {
      assert ts == [ls[0]] + (ls[1..] + rest);
      ContinueOp(ls[0], Apply(b, e), ls[1..] + rest);
      BrokenSticks(AfterOp(ls[0], Apply(b, e)), ls[1..], rest);
    } else if OpensPhrase(ls) {
      var p := ReadPhrase(ls);
      PhraseApart(ls, rest);
      if p.Phrased? {
        PhraseLeavesNoParens(ls);
        BrokenOn(b, Both(e, Leaf(p.phrase)), p.rest, rest);
      }
    } else {
      assert ts[0] == ls[0] && ls[0] in ls;
      ContinueEnds(Apply(b, e), ts);
    }
  }

  // ----- verdicts -----

  /** A stretch of the expression reads to its end, is cut short by a NUL where an expression may end, or
      breaks the whole. */
  datatype Verdict = Complete | CutShort | Broken

  function AndThen(v: Verdict, w: Verdict): Verdict {
    if v == Complete then w else v
  }

  function AtomVerdict(col: Column, v: string): Verdict {
    var x := AtomLexed(col, v);
    if !Chain(x.ls) then Broken else if x.more then Complete else CutShort
  }

  function AtomLexed(col: Column, v: string): Lexed {
    TokLexed(Atom(col, ColumnValue(v)))
  }

  /** Parentheses have to be closed. */
  function Enclosed(v: Verdict): Verdict {
    if v == CutShort then Broken else v
  }

  function ClauseVerdict(c: Clause): Verdict {
    match c
    case One(col, v) => AtomVerdict(col, v)
    case Either(v) => Enclosed(AtomVerdict(Title, v))
  }

  function TailVerdict(parts: seq<Part>): Verdict {
    if parts == [] then Complete else AndThen(ClauseVerdict(parts[0].clause), TailVerdict(parts[1..]))
  }

  function BranchVerdict(parts: seq<Part>): Verdict
    requires parts != []
  {
    if parts[0].negated then Broken else TailVerdict(parts)
  }

  function UnitVerdict(parts: seq<Part>): Verdict
    requires parts != []
  {
    if NeedsParens(JoinParts(parts)) then Enclosed(BranchVerdict(parts)) else BranchVerdict(parts)
  }

  function UnitsVerdict(live: seq<seq<Part>>): Verdict
    requires NoneEmpty(live)
  {
    if live == [] then Complete else AndThen(UnitVerdict(live[0]), UnitsVerdict(live[1..]))
  }

  function QueryVerdict(live: seq<seq<Part>>): Verdict
    requires NoneEmpty(live)
  {
    if |live| == 1 then BranchVerdict(live[0]) else UnitsVerdict(live)
  }

  /** Reading `p` went as the verdict says, with `a` read before `rest`. */
  predicate Runs(p: Parsed, v: Verdict, a: After, rest: seq<Lexeme>) {
    match v
    case Complete => p == Continue(a, rest)
    case CutShort => p == Continue(a, [])
    case Broken => Stuck(p)
  }

  // ----- clauses -----

  lemma AtomNoParens(col: Column, v: string)
    requires FromText(v)
    ensures NoParens(AtomLexed(col, v).ls)
  {
    var text :| v == QuoteIfNeeded(text);
    TextReads(text);
    TextNoParens(text);
  }

  lemma NamedPhrase(name: string, w: seq<Lexeme>)
    requires FoldCase(name) in COLUMNS
    ensures ReadPhrase([Str(name), Colon] + w)
         == if w == [] || !w[0].Str? then NoPhrase else Starred(These(FoldCase(name)), w[0].text, w[1..])
  {
    var ls := [Str(name), Colon] + w;
    if w != [] {
      assert ls[2] == w[0] && ls[3..] == w[1..];
    }
    assert ls[1..][0] == Colon;
  }

  lemma ColumnFolds(col: Column)
    ensures FoldCase(ColumnName(col)) == ColumnName(col) && ColumnName(col) in COLUMNS
  {
  }

  /** The column's name makes no difference to what follows it. */
  lemma ColumnsAlike(a: Column, b: Column, v: string)
    ensures AtomVerdict(a, v) == AtomVerdict(b, v)
  {
    var w := Lex(ColumnValue(v)).ls;
    ColumnFolds(a);
    ColumnFolds(b);
    NamedPhrase(ColumnName(a), w);
    NamedPhrase(ColumnName(b), w);
  }

  function AtomAfter(b: Before, col: Column, v: string): After
    requires AtomVerdict(col, v) != Broken
  {
    Chained(b, AtomLexed(col, v).ls)
  }

  lemma AtomEnters(b: Before, col: Column, v: string, m: Lexed)
    requires FromText(v) && Halts(m.ls)
    ensures var p := Enter(b, Then(AtomLexed(col, v), m).ls);
            var t := AtomVerdict(col, v);
            if t == Broken then Stuck(p) else Runs(p, t, AtomAfter(b, col, v), m.ls)
  {
    var x := AtomLexed(col, v);
    var rest := if x.more then m.ls else [];
    assert Then(x, m).ls == x.ls + rest;
    if Chain(x.ls) {
      ChainEnters(b, x.ls, rest);
    } else {
      AtomNoParens(col, v);
      BrokenSticks(b, x.ls, rest);
    }
  }

  function ClauseLexed(c: Clause): Lexed {
    ToksLexed(ClauseToks(c))
  }

  function EitherTree(v: string): Fts
    requires AtomVerdict(Title, v) == Complete
  {
    ColumnsAlike(Title, Body, v);
    Whole(AtomAfter(AfterOp(OrOp, AtomAfter(START, Title, v)), Body, v))
  }

  function ClauseAfter(b: Before, c: Clause): After
    requires ClauseVerdict(c) != Broken
  {
    match c
    case One(col, v) => AtomAfter(b, col, v)
    case Either(v) => Apply(b, EitherTree(v))
  }

  /** The inside of the parentheses around a term looked for in either column. */
  function EitherRest(v: string, m: Lexed): Lexed {
    Then(Lexed([OrOp], true), Then(AtomLexed(Body, v), Then(Lexed([Right], true), m)))
  }

  lemma EitherLexed(v: string, m: Lexed)
    ensures Then(ClauseLexed(Either(v)), m).ls == [Left] + Then(AtomLexed(Title, v), EitherRest(v, m)).ls
  {
    var l, t, o := Lexed([Left], true), AtomLexed(Title, v), Lexed([OrOp], true);
    var b, r := AtomLexed(Body, v), Lexed([Right], true);
    var ts := ClauseToks(Either(v));
    assert ToksLexed(ts[4..]) == Then(r, NOTHING) == r;
    assert ToksLexed(ts[3..]) == Then(b, r);
    assert ToksLexed(ts[2..]) == Then(o, Then(b, r));
    assert ToksLexed(ts[1..]) == Then(t, Then(o, Then(b, r)));
    ThenAssoc(l, Then(t, Then(o, Then(b, r))), m);
    ThenAssoc(t, Then(o, Then(b, r)), m);
    ThenAssoc(o, Then(b, r), m);
    ThenAssoc(b, r, m);
  }

  lemma EitherEnters(b: Before, v: string, m: Lexed)
    requires FromText(v) && Halts(m.ls)
    ensures var p := Enter(b, Then(ClauseLexed(Either(v)), m).ls);
            if AtomVerdict(Title, v) == Complete then p == Continue(Apply(b, EitherTree(v)), m.ls) else p == Fail
  {
    var inner := Then(AtomLexed(Title, v), EitherRest(v, m)).ls;
    EitherLexed(v, m);
    assert ([Left] + inner)[1..] == inner;
    EitherInside(v, m);
    OrExprEnters(inner);
  }

  lemma EitherInside(v: string, m: Lexed)
    requires FromText(v) && Halts(m.ls)
    ensures var p := Enter(START, Then(AtomLexed(Title, v), EitherRest(v, m)).ls);
            if AtomVerdict(Title, v) == Complete then p == Got(EitherTree(v), [Right] + m.ls)
            else p.Fail? || !([Right] <= p.rest)
  {
    var closing := Then(Lexed([Right], true), m);
    AtomEnters(START, Title, v, EitherRest(v, m));
    if AtomVerdict(Title, v) == Complete {
      var a := AtomAfter(START, Title, v);
      ColumnsAlike(Title, Body, v);
      ContinueOp(OrOp, a, Then(AtomLexed(Body, v), closing).ls);
      AtomEnters(AfterOp(OrOp, a), Body, v, closing);
      ContinueEnds(AtomAfter(AfterOp(OrOp, a), Body, v), closing.ls);
    } else if AtomVerdict(Title, v) == CutShort {
      ContinueEnds(AtomAfter(START, Title, v), []);
    }
  }

  lemma ClauseEnters(b: Before, c: Clause, m: Lexed)
    requires FromText(c.value) && Halts(m.ls)
    ensures var p := Enter(b, Then(ClauseLexed(c), m).ls);
            var t := ClauseVerdict(c);
            if t == Broken then Stuck(p) else Runs(p, t, ClauseAfter(b, c), m.ls)
  {
    match c
    case One(col, v) =>
      AtomEnters(b, col, v, m);
      OneTokLexed(Atom(col, ColumnValue(v)));
    case Either(v) =>
      EitherEnters(b, v, m);
  }

  // ----- branches -----

  ghost predicate PartsFromText(parts: seq<Part>) {
    forall k :: 0 <= k < |parts| ==> FromText(parts[k].clause.value)
  }

  function Operator(p: Part): Lexeme {
    if p.negated then NotOp else AndOp
  }

  function TailLexed(parts: seq<Part>): Lexed {
    if parts == [] then NOTHING
    else Then(Lexed([Operator(parts[0])], true), Then(ClauseLexed(parts[0].clause), TailLexed(parts[1..])))
  }

  function TailAfter(a: After, parts: seq<Part>): After
    requires TailVerdict(parts) != Broken
    decreases parts
  {
    if parts == [] then a
    else
      var next := ClauseAfter(AfterOp(Operator(parts[0]), a), parts[0].clause);
      if ClauseVerdict(parts[0].clause) == Complete then TailAfter(next, parts[1..]) else next
  }

  lemma TailHalts(parts: seq<Part>, m: Lexed)
    requires Halts(m.ls)
    ensures Halts(Then(TailLexed(parts), m).ls)
  {
  }

  lemma TailStep(parts: seq<Part>, m: Lexed)
    requires parts != []
    ensures Then(TailLexed(parts), m).ls
         == [Operator(parts[0])] + Then(ClauseLexed(parts[0].clause), Then(TailLexed(parts[1..]), m)).ls
  {
    var o, c, t := Lexed([Operator(parts[0])], true), ClauseLexed(parts[0].clause), TailLexed(parts[1..]);
    ThenAssoc(o, Then(c, t), m);
    ThenAssoc(c, t, m);
  }

  lemma {:induction false} TailContinues(a: After, parts: seq<Part>, m: Lexed)
    requires PartsFromText(parts) && Halts(m.ls)
    ensures var p := Continue(a, Then(TailLexed(parts), m).ls);
            var t := TailVerdict(parts);
            if t == Broken then Stuck(p) else Runs(p, t, TailAfter(a, parts), m.ls)
    decreases parts
  {
    if parts == [] {
      ThenNothing(m);
    } else {
      var op, c, rest := Operator(parts[0]), parts[0].clause, Then(TailLexed(parts[1..]), m);
      TailStep(parts, m);
      TailHalts(parts[1..], m);
      ContinueOp(op, a, Then(ClauseLexed(c), rest).ls);
      ClauseEnters(AfterOp(op, a), c, rest);
      if ClauseVerdict(c) == Complete {
        TailContinues(ClauseAfter(AfterOp(op, a), c), parts[1..], m);
      }
    }
  }

  lemma NegationSpelled(p: Part)
    ensures StartsWithNot(PartToks(p)) <==> p.negated
  {
    var ts := PartToks(p);
    assert Spell(ts) == SpellTok(ts[0]) + Spell(ts[1..]);
    assert Spell(ts)[0] == SpellTok(ts[0])[0];
  }

  function Lead(p: Part): seq<Tok> {
    if p.negated then [Gap, Not] else [And]
  }

  lemma LeadLexed(p: Part)
    ensures ToksLexed(Lead(p)) == Lexed([Operator(p)], true)
  {
    if p.negated {
      assert Lead(p)[1..] == [Not];
      OneTokLexed(Not);
      ThenNothing(TokLexed(Not));
    } else {
      OneTokLexed(And);
    }
  }

  lemma PairSplit(c: seq<Tok>, more: seq<Tok>)
    ensures [Gap] + ([Not] + c) + more == [Gap, Not] + (c + more)
  {
  }

  lemma JoinStep(parts: seq<Part>)
    requires parts != []
    ensures JoinTail(parts) == Lead(parts[0]) + (ClauseToks(parts[0].clause) + JoinTail(parts[1..]))
  {
    var c, more := ClauseToks(parts[0].clause), JoinTail(parts[1..]);
    NegationSpelled(parts[0]);
    PairSplit(c, more);
    assert [] + c == c;
    Assoc([And], c, more);
  }

  lemma {:induction false} JoinTailLexed(parts: seq<Part>)
    ensures ToksLexed(JoinTail(parts)) == TailLexed(parts)
  {
    if parts != [] {
      var c, more := ClauseToks(parts[0].clause), JoinTail(parts[1..]);
      JoinStep(parts);
      JoinTailLexed(parts[1..]);
      ToksAppend(Lead(parts[0]), c + more);
      ToksAppend(c, more);
      LeadLexed(parts[0]);
    }
  }

  function BranchLexed(parts: seq<Part>): Lexed
    requires parts != []
  {
    ToksLexed(JoinParts(parts))
  }

  lemma JoinLexed(parts: seq<Part>)
    requires parts != []
    ensures !parts[0].negated ==> BranchLexed(parts) == Then(ClauseLexed(parts[0].clause), TailLexed(parts[1..]))
    ensures parts[0].negated ==> [NotOp] <= BranchLexed(parts).ls
  {
    var c := ClauseToks(parts[0].clause);
    JoinTailLexed(parts[1..]);
    if parts[0].negated {
      assert JoinParts(parts)[0] == Not;
    } else {
      assert PartToks(parts[0]) == c;
      ToksAppend(c, JoinTail(parts[1..]));
    }
  }

  function BranchAfter(b: Before, parts: seq<Part>): After
    requires parts != [] && BranchVerdict(parts) != Broken
  {
    var a := ClauseAfter(b, parts[0].clause);
    if ClauseVerdict(parts[0].clause) == Complete then TailAfter(a, parts[1..]) else a
  }

  lemma BranchEnters(b: Before, parts: seq<Part>, m: Lexed)
    requires parts != [] && PartsFromText(parts) && Halts(m.ls)
    ensures var p := Enter(b, Then(BranchLexed(parts), m).ls);
            var t := BranchVerdict(parts);
            if t == Broken then Stuck(p) else Runs(p, t, BranchAfter(b, parts), m.ls)
  {
    JoinLexed(parts);
    if !parts[0].negated {
      var c, rest := parts[0].clause, Then(TailLexed(parts[1..]), m);
      ThenAssoc(ClauseLexed(c), TailLexed(parts[1..]), m);
      TailHalts(parts[1..], m);
      ClauseEnters(b, c, rest);
      if ClauseVerdict(c) == Complete {
        TailContinues(ClauseAfter(b, c), parts[1..], m);
      }
    } else {
      assert Then(BranchLexed(parts), m).ls[0] == NotOp;
    }
  }

  // ----- the branches together -----

  function UnitLexed(parts: seq<Part>): Lexed
    requires parts != []
  {
    ToksLexed(Unit(JoinParts(parts)))
  }

  function UnitAfter(b: Before, parts: seq<Part>): After
    requires parts != [] && UnitVerdict(parts) != Broken
  {
    if NeedsParens(JoinParts(parts)) then Apply(b, Whole(BranchAfter(START, parts))) else BranchAfter(b, parts)
  }

  lemma ParenLexed(ts: seq<Tok>, m: Lexed)
    ensures Then(ToksLexed([Open] + ts + [Close]), m).ls
         == [Left] + Then(ToksLexed(ts), Then(Lexed([Right], true), m)).ls
  {
    var l, x, r := Lexed([Left], true), ToksLexed(ts), Lexed([Right], true);
    ToksAppend([Open] + ts, [Close]);
    ToksAppend([Open], ts);
    OneTokLexed(Open);
    OneTokLexed(Close);
    ThenAssoc(l, x, r);
    ThenAssoc(l, Then(x, r), m);
    ThenAssoc(x, r, m);
  }

  lemma InsideParens(parts: seq<Part>, m: Lexed)
    requires parts != [] && PartsFromText(parts) && Halts(m.ls)
    ensures var p := OrExpr(Then(BranchLexed(parts), Then(Lexed([Right], true), m)).ls);
            if BranchVerdict(parts) == Complete then p == Got(Whole(BranchAfter(START, parts)), [Right] + m.ls)
            else p.Fail? || !([Right] <= p.rest)
  {
    var closing := Then(Lexed([Right], true), m);
    BranchEnters(START, parts, closing);
    OrExprEnters(Then(BranchLexed(parts), closing).ls);
    if BranchVerdict(parts) != Broken {
      ContinueEnds(BranchAfter(START, parts), closing.ls);
      ContinueEnds(BranchAfter(START, parts), []);
    }
  }

  lemma ParensEnter(b: Before, parts: seq<Part>, m: Lexed)
    requires parts != [] && PartsFromText(parts) && Halts(m.ls)
    ensures var p := Enter(b, Then(ToksLexed([Open] + JoinParts(parts) + [Close]), m).ls);
            if BranchVerdict(parts) == Complete then p == Continue(Apply(b, Whole(BranchAfter(START, parts))), m.ls)
            else p == Fail
  {
    var inner := Then(BranchLexed(parts), Then(Lexed([Right], true), m)).ls;
    ParenLexed(JoinParts(parts), m);
    InsideParens(parts, m);
    assert ([Left] + inner)[1..] == inner;
    assert ([Right] + m.ls)[1..] == m.ls;
  }

  lemma UnitEnters(b: Before, parts: seq<Part>, m: Lexed)
    requires parts != [] && PartsFromText(parts) && Halts(m.ls)
    ensures var p := Enter(b, Then(UnitLexed(parts), m).ls);
            var t := UnitVerdict(parts);
            if t == Broken then Stuck(p) else Runs(p, t, UnitAfter(b, parts), m.ls)
  {
    if NeedsParens(JoinParts(parts)) {
      ParensEnter(b, parts, m);
    } else {
      BranchEnters(b, parts, m);
    }
  }

  ghost predicate LiveFromText(live: seq<seq<Part>>) {
    forall k :: 0 <= k < |live| ==> PartsFromText(live[k])
  }

  function UnitsLexed(live: seq<seq<Part>>): Lexed
    requires NoneEmpty(live)
  {
    if live == [] then NOTHING
    else Then(Lexed([OrOp], true), Then(UnitLexed(live[0]), UnitsLexed(live[1..])))
  }

  function UnitsAfter(a: After, live: seq<seq<Part>>): After
    requires NoneEmpty(live) && UnitsVerdict(live) != Broken
    decreases live
  {
    if live == [] then a
    else
      var next := UnitAfter(AfterOp(OrOp, a), live[0]);
      if UnitVerdict(live[0]) == Complete then UnitsAfter(next, live[1..]) else next
  }

  lemma {:induction false} UnitsContinue(a: After, live: seq<seq<Part>>)
    requires NoneEmpty(live) && LiveFromText(live)
    ensures var p := Continue(a, UnitsLexed(live).ls);
            var t := UnitsVerdict(live);
            if t == Broken then Stuck(p) else Runs(p, t, UnitsAfter(a, live), [])
    decreases live
  {
    if live != [] {
      var b, rest := AfterOp(OrOp, a), UnitsLexed(live[1..]);
      ContinueOp(OrOp, a, Then(UnitLexed(live[0]), rest).ls);
      UnitEnters(b, live[0], rest);
      if UnitVerdict(live[0]) == Complete {
        UnitsContinue(UnitAfter(b, live[0]), live[1..]);
      }
    }
  }

  lemma UnitsTail(live: seq<seq<Part>>)
    requires live != [] && NoneEmpty(live)
    ensures Units(live)[1..] == Units(live[1..])
  {
  }

  lemma {:induction false} OrTailLexed(live: seq<seq<Part>>)
    requires NoneEmpty(live)
    ensures ToksLexed(OrTail(Units(live))) == UnitsLexed(live)
  {
    if live != [] {
      var unit, more := Unit(JoinParts(live[0])), OrTail(Units(live[1..]));
      UnitsTail(live);
      Assoc([Or], unit, more);
      ToksAppend([Or], unit + more);
      ToksAppend(unit, more);
      OneTokLexed(Or);
      OrTailLexed(live[1..]);
    }
  }

  function QueryAfter(live: seq<seq<Part>>): After
    requires live != [] && NoneEmpty(live) && QueryVerdict(live) != Broken
  {
    if |live| == 1 then BranchAfter(START, live[0])
    else
      var a := UnitAfter(START, live[0]);
      if UnitVerdict(live[0]) == Complete then UnitsAfter(a, live[1..]) else a
  }

  /** The assembled tokens are read as the verdict says. */
  lemma AssembleReads(live: seq<seq<Part>>)
    requires live != [] && NoneEmpty(live) && LiveFromText(live)
    ensures var p := OrExpr(ToksLexed(Assemble(live).toks).ls);
            if QueryVerdict(live) == Broken then Stuck(p) else p == Got(Whole(QueryAfter(live)), [])
  {
    if |live| == 1 {
      ThenNothing(BranchLexed(live[0]));
      BranchEnters(START, live[0], NOTHING);
      OrExprEnters(BranchLexed(live[0]).ls);
    } else {
      var x, rest := UnitLexed(live[0]), UnitsLexed(live[1..]);
      UnitsTail(live);
      OrTailLexed(live[1..]);
      ToksAppend(Unit(JoinParts(live[0])), OrTail(Units(live[1..])));
      UnitEnters(START, live[0], rest);
      OrExprEnters(Then(x, rest).ls);
      if UnitVerdict(live[0]) == Complete {
        UnitsContinue(UnitAfter(START, live[0]), live[1..]);
      }
    }
    if QueryVerdict(live) != Broken {
      ContinueEnds(QueryAfter(live), []);
    }
  }
}
