/** What a compiled query means (internal/search/fts5.go): the emitted string is a valid FTS5 expression
    under an exact condition, and matches what the query asks for when every value is one string. */
module SearchMeaning {
  import opened Text
  import opened SearchQuery
  import opened SearchGrammar
  import opened SearchSpelling
  import opened SearchValid

  // ----- the emitted string -----

  lemma ClauseSpaced(c: Clause)
    requires FromText(c.value)
    ensures Spaced(ClauseToks(c))
  {
    var w := ColumnValue(c.value);
    assert FromValue(w);
    if c.Either? {
      var t, b := Atom(Title, w), Atom(Body, w);
      assert Spaced([Close]) && Spaced([b, Close]) && Spaced([Or, b, Close]);
      assert Spaced([t, Or, b, Close]);
    }
  }

  lemma PartSpaced(p: Part)
    requires FromText(p.clause.value)
    ensures Spaced(PartToks(p))
  {
    ClauseSpaced(p.clause);
    assert p.negated ==> PartToks(p)[1..] == ClauseToks(p.clause);
    assert !p.negated ==> PartToks(p) == ClauseToks(p.clause);
  }

  lemma {:induction false} JoinTailSpaced(parts: seq<Part>)
    requires PartsFromText(parts)
    ensures Spaced(JoinTail(parts)) && MayFollow(JoinTail(parts))
  {
    if parts != [] {
      var c, more := ClauseToks(parts[0].clause), JoinTail(parts[1..]);
      JoinStep(parts);
      JoinTailSpaced(parts[1..]);
      ClauseSpaced(parts[0].clause);
      SpacedAppend(c, more);
      assert Spaced([Not]) && [Gap, Not][1..] == [Not];
      SpacedAppend(Lead(parts[0]), c + more);
    }
  }

  lemma JoinSpaced(parts: seq<Part>)
    requires parts != [] && PartsFromText(parts)
    ensures Spaced(JoinParts(parts))
  {
    PartSpaced(parts[0]);
    JoinTailSpaced(parts[1..]);
    SpacedAppend(PartToks(parts[0]), JoinTail(parts[1..]));
  }

  lemma UnitSpaced(parts: seq<Part>)
    requires parts != [] && PartsFromText(parts)
    ensures Spaced(Unit(JoinParts(parts)))
  {
    var ts := JoinParts(parts);
    JoinSpaced(parts);
    SpacedAppend([Open], ts);
    SpacedAppend([Open] + ts, [Close]);
  }

  lemma {:induction false} OrTailSpaced(live: seq<seq<Part>>)
    requires NoneEmpty(live) && LiveFromText(live)
    ensures Spaced(OrTail(Units(live))) && MayFollow(OrTail(Units(live)))
  {
    if live != [] {
      var unit, more := Unit(JoinParts(live[0])), OrTail(Units(live[1..]));
      UnitsTail(live);
      UnitSpaced(live[0]);
      OrTailSpaced(live[1..]);
      SpacedAppend([Or], unit);
      SpacedAppend([Or] + unit, more);
    }
  }

  lemma AssembleSpaced(live: seq<seq<Part>>)
    requires live != [] && NoneEmpty(live) && LiveFromText(live)
    ensures Spaced(Assemble(live).toks)
  {
    if |live| == 1 {
      JoinSpaced(live[0]);
    } else {
      UnitsTail(live);
      UnitSpaced(live[0]);
      OrTailSpaced(live[1..]);
      SpacedAppend(Unit(JoinParts(live[0])), OrTail(Units(live[1..])));
    }
  }

  lemma ItemFromText(item: Item, scope: Scope)
    ensures PartsFromText(ItemParts(item, scope))
  {
  }

  lemma {:induction false} PartsAreFromText(items: Branch, scope: Scope)
    ensures PartsFromText(Parts(items, scope))
    decreases items
  {
    if items != [] {
      ItemFromText(items[0], scope);
      PartsAreFromText(items[1..], NextScope(items[0], scope));
    }
  }

  lemma HoistedFromText(branches: seq<Branch>, i: nat, scope: Scope)
    requires i < |branches|
    ensures PartsFromText(HoistedParts(branches, i, scope))
  {
    PartsAreFromText(BranchItems(branches, i, scope), HoistOf(branches, scope).scope);
  }

  lemma {:induction false} OnesFromText(xs: seq<seq<Part>>)
    requires LiveFromText(xs)
    ensures LiveFromText(NonEmptyOnes(xs))
  {
    if xs != [] {
      OnesFromText(xs[1..]);
    }
  }

  lemma LiveIsFromText(branches: seq<Branch>, scope: Scope)
    ensures LiveFromText(Live(branches, scope))
  {
    forall i | 0 <= i < |branches| ensures PartsFromText(AllHoisted(branches, scope)[i]) {
      HoistedFromText(branches, i, scope);
    }
    OnesFromText(AllHoisted(branches, scope));
  }

  lemma AssembleParses(live: seq<seq<Part>>)
    requires live != [] && NoneEmpty(live) && LiveFromText(live)
    ensures ParseFts(Spell(Assemble(live).toks))
         == if QueryVerdict(live) == Broken then None else Some(Whole(QueryAfter(live)))
  {
    AssembleSpaced(live);
    SpellingReads(Assemble(live).toks);
    AssembleReads(live);
  }

  /** The emitted string is a valid FTS5 expression exactly when, branch by branch, the first part is
      positive and every value read by itself is an expression, up to where a NUL ends the whole outside
      parentheses. */
  lemma CompilationValid(branches: seq<Branch>, scope: Scope)
    ensures var live := Live(branches, scope);
      && (ToFts5(branches, scope).Wildcard? <==> live == [])
      && (live != [] ==> (ParseFts(Spell(ToFts5(branches, scope).toks)).Some? <==> QueryVerdict(live) != Broken))
  {
    var live := Live(branches, scope);
    if live != [] {
      LiveIsFromText(branches, scope);
      AssembleParses(live);
    }
  }

  // ----- what a query should match -----

  predicate IsBareword(s: string) {
    s != "" && (forall k :: 0 <= k < |s| ==> BareChar(s[k])) && s !in {"AND", "OR", "NOT"}
  }

  /** A bareword, or one with a star for a prefix match. */
  predicate IsWord(s: string) {
    IsBareword(s) || (EndsInStar(s) && IsBareword(s[..|s| - 1]))
  }

  /** The text is emitted in quotes, with nothing to cut it short, or is a word. */
  predicate OneString(text: string) {
    if GetsQuotes(text) then '\0' !in text else IsWord(text)
  }

  /** What a text asks for in a column. */
  function Wanted(col: Column, text: string): Phrase {
    if !GetsQuotes(text) && EndsInStar(text) then Phrase(These(ColumnName(col)), text[..|text| - 1], true)
    else Phrase(These(ColumnName(col)), text, false)
  }

  /** The text behind a clause's value. */
  function TextOf(v: string): string {
    if "\"" <= v && Unquote(v[1..]).Closed? then Unquote(v[1..]).text else v
  }

  lemma QuotesOff(text: string)
    requires '\0' !in text
    ensures TextOf("\"" + DoubleQuotes(text) + "\"") == text
  {
    UnquoteDoubled(text, "");
    assert ("\"" + DoubleQuotes(text) + "\"")[1..] == DoubleQuotes(text) + ("\"" + "");
  }

  lemma TextRecovered(text: string)
    requires OneString(text)
    ensures TextOf(QuoteIfNeeded(text)) == text
  {
    if c :| c in text && c in {' ', '(', ')', '"'} {
      assert NeedsQuotes(c);
      QuotesOff(text);
    } else {
      assert text != "" ==> text[0] in text;
    }
  }

  predicate ClauseHolds(c: Clause, row: Phrase -> bool) {
    match c
    case One(col, v) => row(Wanted(col, TextOf(v)))
    case Either(v) => row(Wanted(Title, TextOf(v))) || row(Wanted(Body, TextOf(v)))
  }

  predicate PartHolds(p: Part, row: Phrase -> bool) {
    ClauseHolds(p.clause, row) != p.negated
  }

  /** Every positive part and no negated one. */
  predicate BranchHolds(parts: seq<Part>, row: Phrase -> bool) {
    forall k :: 0 <= k < |parts| ==> PartHolds(parts[k], row)
  }

  predicate SomeBranchHolds(live: seq<seq<Part>>, row: Phrase -> bool) {
    exists k :: 0 <= k < |live| && BranchHolds(live[k], row)
  }

  // ----- one clause -----

  ghost predicate ClauseSingle(c: Clause) {
    exists text :: c.value == QuoteIfNeeded(text) && OneString(text)
  }

  function ClauseTree(c: Clause): Fts {
    match c
    case One(col, v) => Leaf(Wanted(col, TextOf(v)))
    case Either(v) => AnyOf(Leaf(Wanted(Title, TextOf(v))), Leaf(Wanted(Body, TextOf(v))))
  }

  lemma ClauseMeans(c: Clause, row: Phrase -> bool)
    ensures Eval(ClauseTree(c), row) == ClauseHolds(c, row)
  {
  }

  lemma BarewordLexed(text: string, rest: string)
    requires IsBareword(text) && (rest == "" || rest == "*")
    ensures Lex(text + rest) == Lexed([Str(text)] + (if rest == "" then [] else [Star]), true)
  {
    WordLexed(text, rest);
    assert "*"[1..] == "";
  }

  /** A text that is one string reads as the phrase it asks for. */
  lemma SingleReads(text: string, col: Column)
    requires OneString(text)
    ensures var x, w := TextLexed(text), Wanted(col, text);
            x == Lexed([Str(w.text)] + (if w.prefix then [Star] else []), true)
  {
    if !GetsQuotes(text) {
      if EndsInStar(text) {
        var stem := text[..|text| - 1];
        assert text == stem + "*";
        assert text[|text| - 1] == '*' && !BareChar('*');
        BarewordLexed(stem, "*");
      } else {
        assert text + "" == text;
        BarewordLexed(text, "");
      }
    }
  }

  lemma AtomSingle(b: Before, col: Column, text: string)
    requires OneString(text)
    ensures var v := QuoteIfNeeded(text);
            AtomVerdict(col, v) == Complete && AtomAfter(b, col, v) == Apply(b, Leaf(Wanted(col, text)))
  {
    var w, v := Wanted(col, text), QuoteIfNeeded(text);
    var ls := [Str(w.text)] + (if w.prefix then [Star] else []);
    TextReads(text);
    SingleReads(text, col);
    ColumnFolds(col);
    NamedPhrase(ColumnName(col), ls);
    assert ls[1..] == if w.prefix then [Star] else [];
    assert AtomLexed(col, v) == Lexed([Str(ColumnName(col)), Colon] + ls, true);
    assert ReadPhrase(AtomLexed(col, v).ls) == Phrased(w, []);
    assert Chain(AtomLexed(col, v).ls);
    assert Strung(b, Leaf(w), []) == Apply(b, Leaf(w));
  }

  lemma ClausePlain(b: Before, c: Clause)
    requires ClauseSingle(c)
    ensures ClauseVerdict(c) == Complete && ClauseAfter(b, c) == Apply(b, ClauseTree(c))
  {
    var text :| c.value == QuoteIfNeeded(text) && OneString(text);
    TextRecovered(text);
    if c.Either? {
      var t := Leaf(Wanted(Title, text));
      AtomSingle(START, Title, text);
      AtomSingle(AfterOp(OrOp, Apply(START, t)), Body, text);
    } else {
      AtomSingle(b, c.col, text);
    }
  }

  // ----- one branch -----

  predicate StartsPositive(parts: seq<Part>) {
    parts != [] && !parts[0].negated
  }

  ghost predicate PartsSingle(parts: seq<Part>) {
    forall k :: 0 <= k < |parts| ==> ClauseSingle(parts[k].clause)
  }

  /** A conjunction FTS5 can be told as it is meant. */
  ghost predicate Sayable(parts: seq<Part>) {
    StartsPositive(parts) && PartsSingle(parts)
  }

  lemma {:induction false} TailComplete(parts: seq<Part>)
    requires PartsSingle(parts)
    ensures TailVerdict(parts) == Complete
  {
    if parts != [] {
      ClausePlain(START, parts[0].clause);
      TailComplete(parts[1..]);
    }
  }

  lemma HoldsStep(parts: seq<Part>, row: Phrase -> bool)
    requires parts != []
    ensures BranchHolds(parts, row) <==> PartHolds(parts[0], row) && BranchHolds(parts[1..], row)
  {
    if PartHolds(parts[0], row) && BranchHolds(parts[1..], row) {
      forall k | 0 <= k < |parts| ensures PartHolds(parts[k], row) {
        assert k > 0 ==> PartHolds(parts[1..][k - 1], row);
      }
    }
    if BranchHolds(parts, row) {
      forall k | 0 <= k < |parts| - 1 ensures PartHolds(parts[1..][k], row) {
        assert PartHolds(parts[k + 1], row);
      }
    }
  }

  /** The alternative being read, so far. */
  predicate CurrentHolds(a: After, row: Phrase -> bool) {
    (a.conj.Some? ==> Eval(a.conj.value, row)) && Eval(a.cur, row)
  }

  lemma StepMeans(a: After, p: Part, row: Phrase -> bool)
    ensures var next := Apply(AfterOp(Operator(p), a), ClauseTree(p.clause));
            next.alts == a.alts && (CurrentHolds(next, row) <==> CurrentHolds(a, row) && PartHolds(p, row))
  {
    ClauseMeans(p.clause, row);
  }

  lemma {:induction false} TailMeans(a: After, parts: seq<Part>, row: Phrase -> bool)
    requires PartsSingle(parts)
    ensures TailVerdict(parts) == Complete
    ensures var r := TailAfter(a, parts);
            r.alts == a.alts && (CurrentHolds(r, row) <==> CurrentHolds(a, row) && BranchHolds(parts, row))
    decreases parts
  {
    TailComplete(parts);
    if parts != [] {
      var b := AfterOp(Operator(parts[0]), a);
      ClausePlain(b, parts[0].clause);
      StepMeans(a, parts[0], row);
      TailMeans(Apply(b, ClauseTree(parts[0].clause)), parts[1..], row);
      HoldsStep(parts, row);
    }
  }

  lemma WholeMeans(a: After, row: Phrase -> bool)
    ensures Eval(Whole(a), row) <==> (a.alts.Some? && Eval(a.alts.value, row)) || CurrentHolds(a, row)
  {
  }

  lemma BranchMeans(alts: Option<Fts>, parts: seq<Part>, row: Phrase -> bool)
    requires Sayable(parts)
    ensures BranchVerdict(parts) == Complete
    ensures var r := BranchAfter(Before(alts, None, None), parts);
            r.alts == alts && (CurrentHolds(r, row) <==> BranchHolds(parts, row))
  {
    var b, c := Before(alts, None, None), parts[0].clause;
    ClausePlain(b, c);
    ClauseMeans(c, row);
    TailMeans(Apply(b, ClauseTree(c)), parts[1..], row);
    HoldsStep(parts, row);
  }

  // ----- the branches together -----

  lemma UnitMeans(alts: Option<Fts>, parts: seq<Part>, row: Phrase -> bool)
    requires Sayable(parts)
    ensures UnitVerdict(parts) == Complete
    ensures Eval(Whole(UnitAfter(Before(alts, None, None), parts)), row)
       <==> (alts.Some? && Eval(alts.value, row)) || BranchHolds(parts, row)
  {
    var b := Before(alts, None, None);
    BranchMeans(alts, parts, row);
    BranchMeans(None, parts, row);
    WholeMeans(BranchAfter(b, parts), row);
    WholeMeans(BranchAfter(START, parts), row);
    WholeMeans(UnitAfter(b, parts), row);
  }

  ghost predicate AllSayable(live: seq<seq<Part>>) {
    forall k :: 0 <= k < |live| ==> Sayable(live[k])
  }

  lemma SomeStep(live: seq<seq<Part>>, row: Phrase -> bool)
    requires live != []
    ensures SomeBranchHolds(live, row) <==> BranchHolds(live[0], row) || SomeBranchHolds(live[1..], row)
  {
    if k :| 0 <= k < |live| && BranchHolds(live[k], row) {
      assert k > 0 ==> live[k] == live[1..][k - 1];
    }
    if k :| 0 <= k < |live[1..]| && BranchHolds(live[1..][k], row) {
      assert live[1..][k] == live[k + 1];
    }
  }

  lemma {:induction false} UnitsMean(a: After, live: seq<seq<Part>>, row: Phrase -> bool)
    requires AllSayable(live)
    ensures UnitsVerdict(live) == Complete
    ensures Eval(Whole(UnitsAfter(a, live)), row) <==> Eval(Whole(a), row) || SomeBranchHolds(live, row)
    decreases live
  {
    if live != [] {
      UnitMeans(Some(Whole(a)), live[0], row);
      UnitsMean(UnitAfter(AfterOp(OrOp, a), live[0]), live[1..], row);
      SomeStep(live, row);
    }
  }

  lemma QueryMeans(live: seq<seq<Part>>, row: Phrase -> bool)
    requires live != [] && AllSayable(live)
    ensures QueryVerdict(live) == Complete
    ensures Eval(Whole(QueryAfter(live)), row) <==> SomeBranchHolds(live, row)
  {
    SomeStep(live, row);
    if |live| == 1 {
      BranchMeans(None, live[0], row);
      WholeMeans(BranchAfter(START, live[0]), row);
    } else {
      UnitMeans(None, live[0], row);
      UnitsMean(UnitAfter(START, live[0]), live[1..], row);
    }
  }

  /** Compilation preserves meaning: when every non-empty branch starts with a positive part and every
      value is one string, the emitted string is a valid expression that matches a row exactly when some
      branch does: all its positive parts and none of its negated ones. */
  lemma CompilationPreservesMeaning(branches: seq<Branch>, scope: Scope, row: Phrase -> bool)
    requires var live := Live(branches, scope); live != [] && AllSayable(live)
    ensures var r := ParseFts(Spell(ToFts5(branches, scope).toks));
            r.Some? && (Eval(r.value, row) <==> SomeBranchHolds(Live(branches, scope), row))
  {
    var live := Live(branches, scope);
    LiveIsFromText(branches, scope);
    AssembleParses(live);
    QueryMeans(live, row);
  }

  lemma LonePart(negated: bool)
    ensures ItemParts(Term(negated, "a"), Anywhere) == [Part(negated, Either("a"))]
  {
    assert Keep("a", {'\''}) == "a" && Keep("a", DROPPED) == "a";
    assert Sanitize("a") == "a";
    assert QuoteIfNeeded("a") == "a";
  }

  lemma LoneItem(item: Item, scope: Scope)
    ensures Live([[item]], scope) == Conjunction(ItemParts(item, scope))
  {
    var q, first := [[item]], ItemParts(item, scope);
    assert BranchItems(q, 0, scope) == [item];
    assert [item][1..] == [];
    assert Parts([item], scope) == first + [] == first;
    assert AllHoisted(q, scope) == [first] && [first][1..] == [];
    assert NonEmptyOnes([first]) == Conjunction(first) + NonEmptyOnes([]) == Conjunction(first);
  }

  /** A lone negated term compiles to something FTS5 rejects. */
  lemma LoneNegationRejected()
    ensures var q := [[Term(true, "a")]];
            ToFts5(q, Anywhere).Expr? && ParseFts(Spell(ToFts5(q, Anywhere).toks)).None?
  {
    LonePart(true);
    LoneItem(Term(true, "a"), Anywhere);
    CompilationValid([[Term(true, "a")]], Anywhere);
  }
}
