/** Which queries FTS5 can read (internal/search/fts5.go), said of the query's own items: when the compiled
    query is a valid expression, and when the expression matches what the query asks for. */
module SearchReadable {
  import opened Text
  import opened SearchQuery
  import opened SearchGrammar
  import opened SearchSpelling
  import opened SearchValid
  import opened SearchMeaning
  import opened SearchHoist

  // ----- one value -----

  lemma {:induction false} KeepClean(s: string, drop: set<char>)
    requires forall k :: 0 <= k < |s| ==> s[k] !in drop
    ensures Keep(s, drop) == s
  {
    if s != "" {
      KeepClean(s[1..], drop);
    }
  }

  /** A sanitized term holds no character FTS5 would choke on, keeps a star only at its end, and is
      left alone by a second pass. */
  lemma SanitizeSettles(term: string)
    ensures var r := Sanitize(term);
            (forall k :: 0 <= k < |r| ==> r[k] !in DROPPED || (r[k] == '*' && k == |r| - 1)) && Sanitize(r) == r
  {
    var kept := Keep(if EndsInStar(term) then term[..|term| - 1] else term, DROPPED);
    KeepClean(kept, DROPPED);
    assert (kept + "*")[..|kept|] == kept;
    assert !EndsInStar(kept);
  }

  /** The characters that are no use in a search term. */
  predicate IsNoise(c: char) {
    || c == '.' || c == '?' || c == '+' || c == '\\' || c == '[' || c == ']' || c == '^' || c == '$'
    || c == '|' || c == '{' || c == '}' || c == '*'
  }

  lemma {:induction false} KeepNoise(s: string)
    ensures (forall k :: 0 <= k < |s| ==> IsNoise(s[k])) <==> Keep(s, DROPPED) == ""
    ensures forall c :: c in Keep(s, DROPPED) ==> c in s && !IsNoise(c)
  {
    if s != "" {
      KeepNoise(s[1..]);
      assert forall k :: 1 <= k < |s| ==> s[k] == s[1..][k - 1];
    }
  }

  /** A sanitized term holds no noise but perhaps a star at its end, nothing that was not in the term, and
      nothing at all exactly when the term is all noise. */
  lemma SanitizeDropsNoise(term: string)
    ensures var r := Sanitize(term);
            && (forall k :: 0 <= k < |r| ==> r[k] in term && (IsNoise(r[k]) ==> r[k] == '*' && k == |r| - 1))
            && (r == "" <==> forall k :: 0 <= k < |term| ==> IsNoise(term[k]))
  {
    var body := if EndsInStar(term) then term[..|term| - 1] else term;
    KeepNoise(body);
    assert EndsInStar(term) ==> term == body + "*";
    forall k | 0 <= k < |Keep(body, DROPPED)| ensures Keep(body, DROPPED)[k] in term && !IsNoise(Keep(body, DROPPED)[k]) {
      assert Keep(body, DROPPED)[k] in Keep(body, DROPPED);
    }
  }

  /** The text ends the expression at a NUL, being unquoted. */
  predicate Cuts(text: string) {
    !GetsQuotes(text) && '\0' in text
  }

  /** Quoted and free of NUL, or an expression when put behind a column. */
  predicate TextValid(text: string) {
    var x := TextLexed(text);
    x.more && Chain([Str("title"), Colon] + x.ls)
  }

  lemma {:induction false} LexStops(s: string)
    requires '"' !in s && '\0' !in s
    ensures Lex(s).more || Junk in Lex(s).ls
    decreases |s|
  {
    if s != "" {
      assert s[0] in s;
      LexStops(s[if BareChar(s[0]) then WordLength(s) else 1..]);
    }
  }

  /** None of the lexemes of a phrase is junk. */
  lemma PhraseTakes(ls: seq<Lexeme>) returns (n: nat)
    requires ReadPhrase(ls).Phrased?
    ensures n <= |ls| && ReadPhrase(ls).rest == ls[n..] && Junk !in ls[..n]
  {
    n := if Filters(ls) then 3 else if [Minus] <= ls && Filters(ls[1..]) then 4 else 1;
    if [Star] <= ls[n..] {
      assert ls[n..][1..] == ls[n + 1..];
      n := n + 1;
    }
  }

  lemma PhraseNoJunk(ls: seq<Lexeme>)
    requires ReadPhrase(ls).Phrased? && Junk in ls
    ensures Junk in ReadPhrase(ls).rest
  {
    var n := PhraseTakes(ls);
    assert ls == ls[..n] + ls[n..];
  }

  lemma {:induction false} ChainNoJunk(ls: seq<Lexeme>)
    requires Chain(ls)
    ensures Junk !in ls
    decreases |ls|, 1
  {
    OnwardNoJunk(ReadPhrase(ls).rest);
    if Junk in ls {
      PhraseNoJunk(ls);
    }
  }

  lemma {:induction false} OnwardNoJunk(ls: seq<Lexeme>)
    requires Onward(ls)
    ensures Junk !in ls
    decreases |ls|, 2
  {
    if ls != [] {
      if IsOp(ls[0]) {
        ChainNoJunk(ls[1..]);
      } else {
        ChainNoJunk(ls);
      }
    }
  }

  /** Unless it cuts the expression, a text is valid by itself or breaks the whole. */
  lemma TextVerdict(col: Column, text: string)
    ensures AtomVerdict(col, QuoteIfNeeded(text)) == Complete <==> TextValid(text)
    ensures !Cuts(text) ==> AtomVerdict(col, QuoteIfNeeded(text)) != CutShort
  {
    TextReads(text);
    ColumnsAlike(col, Title, QuoteIfNeeded(text));
    var x := TextLexed(text);
    if !Cuts(text) && !x.more && Chain([Str("title"), Colon] + x.ls) {
      TextStops(text);
      ChainNoJunk([Str("title"), Colon] + x.ls);
    }
  }

  lemma TextStops(text: string)
    requires !Cuts(text)
    ensures TextLexed(text).more || Junk in TextLexed(text).ls
  {
    if !GetsQuotes(text) {
      EmittedValue(text);
      LexStops(text);
    }
  }

  /** One string is valid. */
  lemma SingleValid(text: string)
    requires OneString(text)
    ensures TextValid(text)
  {
    AtomSingle(START, Title, text);
    TextVerdict(Title, text);
  }

  // ----- one item -----

  /** The text an item searches for, once sanitised; empty if it searches for nothing. */
  function ItemText(item: Item): string {
    match item
    case Filter(key, value) =>
      if value.None? || value.value == "" || Lower(key) in {"project", "tag", "in"} then ""
      else Sanitize(if Lower(key) in {"title", "body"} then value.value else key + ":" + value.value)
    case Term(_, text) => Sanitize(Keep(text, {'\''}))
  }

  predicate Negates(item: Item) {
    item.Term? && item.negated
  }

  /** An item contributes one part with its text as value, or none. */
  lemma ItemSays(item: Item, scope: Scope)
    ensures ItemText(item) == "" ==> ItemParts(item, scope) == []
    ensures ItemText(item) != "" ==>
              && |ItemParts(item, scope)| == 1
              && ItemParts(item, scope)[0].negated == Negates(item)
              && ItemParts(item, scope)[0].clause.value == QuoteIfNeeded(ItemText(item))
  {
  }

  predicate ItemValid(item: Item) {
    ItemText(item) == "" || TextValid(ItemText(item))
  }

  predicate ItemSingle(item: Item) {
    ItemText(item) == "" || OneString(ItemText(item))
  }

  lemma ItemVerdict(item: Item, scope: Scope)
    requires !Cuts(ItemText(item))
    ensures TailVerdict(ItemParts(item, scope)) == if ItemValid(item) then Complete else Broken
  {
    var parts := ItemParts(item, scope);
    ItemSays(item, scope);
    if ItemText(item) != "" {
      TextVerdict(Title, ItemText(item));
      TextVerdict(Body, ItemText(item));
      assert parts[1..] == [];
      assert TailVerdict(parts) == ClauseVerdict(parts[0].clause);
    }
  }

  // ----- one branch -----

  predicate BranchUncut(items: Branch) {
    forall k :: 0 <= k < |items| ==> !Cuts(ItemText(items[k]))
  }

  predicate BranchTextsValid(items: Branch) {
    forall k :: 0 <= k < |items| ==> ItemValid(items[k])
  }

  predicate BranchTextsSingle(items: Branch) {
    forall k :: 0 <= k < |items| ==> ItemSingle(items[k])
  }

  /** The first item that searches for something does not negate it. */
  predicate OpensPositive(items: Branch) {
    if items == [] then true
    else if ItemText(items[0]) == "" then OpensPositive(items[1..])
    else !Negates(items[0])
  }

  lemma {:induction false} VerdictAppend(a: seq<Part>, b: seq<Part>)
    ensures TailVerdict(a + b) == AndThen(TailVerdict(a), TailVerdict(b))
  {
    if a == [] {
      assert a + b == b;
    } else {
      assert (a + b)[0] == a[0] && (a + b)[1..] == a[1..] + b;
      VerdictAppend(a[1..], b);
    }
  }

  lemma {:induction false} BranchTextsVerdict(items: Branch, scope: Scope)
    requires BranchUncut(items)
    ensures TailVerdict(Parts(items, scope)) == if BranchTextsValid(items) then Complete else Broken
    decreases items
  {
    if items != [] {
      var next := NextScope(items[0], scope);
      ItemVerdict(items[0], scope);
      BranchTextsVerdict(items[1..], next);
      VerdictAppend(ItemParts(items[0], scope), Parts(items[1..], next));
      assert BranchTextsValid(items) <==> ItemValid(items[0]) && BranchTextsValid(items[1..]) by {
        assert forall k :: 1 <= k < |items| ==> items[k] == items[1..][k - 1];
      }
    }
  }

  lemma SingleAppend(a: seq<Part>, b: seq<Part>)
    requires PartsSingle(a) && PartsSingle(b)
    ensures PartsSingle(a + b)
  {
  }

  lemma {:induction false} BranchTextsSay(items: Branch, scope: Scope)
    requires BranchTextsSingle(items)
    ensures PartsSingle(Parts(items, scope))
    decreases items
  {
    if items != [] {
      ItemSays(items[0], scope);
      BranchTextsSay(items[1..], NextScope(items[0], scope));
      SingleAppend(ItemParts(items[0], scope), Parts(items[1..], NextScope(items[0], scope)));
    }
  }

  lemma StartsAppend(a: seq<Part>, b: seq<Part>)
    ensures StartsPositive(a + b) <==> if a == [] then StartsPositive(b) else StartsPositive(a)
  {
    assert a == [] ==> a + b == b;
  }

  lemma {:induction false} BranchStarts(items: Branch, scope: Scope)
    ensures Parts(items, scope) == [] || (StartsPositive(Parts(items, scope)) <==> OpensPositive(items))
    decreases items
  {
    if items != [] {
      var first, rest := ItemParts(items[0], scope), Parts(items[1..], NextScope(items[0], scope));
      ItemSays(items[0], scope);
      StartsAppend(first, rest);
      if ItemText(items[0]) == "" {
        BranchStarts(items[1..], NextScope(items[0], scope));
        assert first + rest == rest;
      }
    }
  }

  lemma {:induction false} SilentBranch(items: Branch, scope: Scope)
    requires Parts(items, scope) == []
    ensures OpensPositive(items) && BranchTextsValid(items)
    decreases items
  {
    if items != [] {
      ItemSays(items[0], scope);
      SilentBranch(items[1..], NextScope(items[0], scope));
      assert forall k :: 1 <= k < |items| ==> items[k] == items[1..][k - 1];
    }
  }

  predicate BranchValid(items: Branch) {
    OpensPositive(items) && BranchTextsValid(items)
  }

  predicate Reads(parts: seq<Part>) {
    parts == [] || BranchVerdict(parts) == Complete
  }

  /** A branch reads, or says nothing, exactly when it opens positive and its texts are valid. */
  lemma BranchReads(items: Branch, scope: Scope)
    requires BranchUncut(items)
    ensures var parts := Parts(items, scope);
            (Reads(parts) <==> BranchValid(items)) && (parts != [] ==> BranchVerdict(parts) != CutShort)
  {
    BranchTextsVerdict(items, scope);
    BranchStarts(items, scope);
    if Parts(items, scope) == [] {
      SilentBranch(items, scope);
    }
  }

  // ----- the query -----

  /** No unquoted text holds a NUL. */
  predicate QueryUncut(branches: seq<Branch>) {
    forall i :: 0 <= i < |branches| ==> BranchUncut(branches[i])
  }

  predicate QueryValid(branches: seq<Branch>) {
    forall i :: 0 <= i < |branches| ==> BranchValid(branches[i])
  }

  /** Every text is quoted, without a NUL, or a word, and no branch opens with a negated one. */
  predicate QuerySingle(branches: seq<Branch>) {
    forall i :: 0 <= i < |branches| ==> OpensPositive(branches[i]) && BranchTextsSingle(branches[i])
  }

  predicate NoneCut(live: seq<seq<Part>>) {
    forall k :: 0 <= k < |live| ==> live[k] != [] && BranchVerdict(live[k]) != CutShort
  }

  predicate AllRead(live: seq<seq<Part>>) {
    forall k :: 0 <= k < |live| ==> Reads(live[k])
  }

  lemma {:induction false} UnitsRead(live: seq<seq<Part>>)
    requires NoneCut(live)
    ensures UnitsVerdict(live) == if AllRead(live) then Complete else Broken
  {
    if live != [] {
      UnitsRead(live[1..]);
      assert forall k :: 1 <= k < |live| ==> live[k] == live[1..][k - 1];
    }
  }

  lemma QueryReads(live: seq<seq<Part>>)
    requires NoneCut(live)
    ensures QueryVerdict(live) != Broken <==> AllRead(live)
  {
    UnitsRead(live);
  }

  predicate All(live: seq<seq<Part>>, ok: seq<Part> -> bool) {
    forall k :: 0 <= k < |live| ==> ok(live[k])
  }

  lemma AllCons(parts: seq<Part>, live: seq<seq<Part>>, ok: seq<Part> -> bool)
    ensures All([parts] + live, ok) <==> ok(parts) && All(live, ok)
  {
    var all := [parts] + live;
    assert all[0] == parts;
    if All(all, ok) {
      assert forall k :: 0 <= k < |live| ==> live[k] == all[k + 1];
    }
  }

  /** Dropping the empty ones leaves a condition that the empty ones meet. */
  lemma {:induction false} OnesAll(xs: seq<seq<Part>>, ok: seq<Part> -> bool)
    requires ok([])
    ensures All(NonEmptyOnes(xs), ok) <==> All(xs, ok)
  {
    if xs != [] {
      OnesAll(xs[1..], ok);
      AllCons(xs[0], xs[1..], ok);
      AllCons(xs[0], NonEmptyOnes(xs[1..]), ok);
      assert xs == [xs[0]] + xs[1..];
      if xs[0] == [] {
        assert NonEmptyOnes(xs) == NonEmptyOnes(xs[1..]);
      }
    }
  }

  lemma PlainAll(branches: seq<Branch>, scope: Scope, ok: seq<Part> -> bool)
    requires ok([])
    ensures All(Plain(branches, scope), ok) <==> All(AllPlain(branches, scope), ok)
  {
    OnesAll(AllPlain(branches, scope), ok);
  }

  predicate Uncut(parts: seq<Part>) {
    parts == [] || BranchVerdict(parts) != CutShort
  }

  lemma PlainReads(branches: seq<Branch>, scope: Scope)
    requires QueryUncut(branches)
    ensures var xs := AllPlain(branches, scope);
            (All(xs, Reads) <==> QueryValid(branches)) && All(xs, Uncut)
  {
    var xs := AllPlain(branches, scope);
    forall i | 0 <= i < |branches| ensures (Reads(xs[i]) <==> BranchValid(branches[i])) && Uncut(xs[i]) {
      BranchReads(branches[i], OwnScope(branches, i, scope));
    }
  }

  /** When no unquoted text holds a NUL, the compiled query is a valid FTS5 expression if and only if, in
      every branch, the first item that searches for something is not negated and every text is valid. */
  lemma CompiledQueryValid(branches: seq<Branch>, scope: Scope)
    requires QueryUncut(branches)
    ensures var plain := Plain(branches, scope);
      && (ToFts5(branches, scope).Wildcard? <==> plain == [])
      && (plain != [] ==> (ParseFts(Spell(ToFts5(branches, scope).toks)).Some? <==> QueryValid(branches)))
  {
    var plain := Plain(branches, scope);
    HoistingKeepsQuery(branches, scope);
    CompilationValid(branches, scope);
    PlainReads(branches, scope);
    PlainAll(branches, scope, Reads);
    PlainAll(branches, scope, Uncut);
    assert NoneCut(plain) && (AllRead(plain) <==> All(plain, Reads));
    QueryReads(plain);
  }

  lemma PlainSingle(branches: seq<Branch>, scope: Scope)
    requires QuerySingle(branches)
    ensures AllSayable(Plain(branches, scope))
  {
    var plain, ok := Plain(branches, scope), (parts: seq<Part>) => parts == [] || Sayable(parts);
    forall i | 0 <= i < |branches| ensures ok(AllPlain(branches, scope)[i]) {
      BranchTextsSay(branches[i], OwnScope(branches, i, scope));
      BranchStarts(branches[i], OwnScope(branches, i, scope));
    }
    PlainAll(branches, scope, ok);
    HoistingKeepsQuery(branches, scope);
    assert forall k :: 0 <= k < |plain| ==> ok(plain[k]);
  }

  /** When, besides, every text is quoted without a NUL or is a word, the expression matches a row
      exactly when some branch of the query, read on its own, does. */
  lemma CompiledQueryMeans(branches: seq<Branch>, scope: Scope, row: Phrase -> bool)
    requires QuerySingle(branches) && Plain(branches, scope) != []
    ensures ToFts5(branches, scope).Expr?
    ensures var r := ParseFts(Spell(ToFts5(branches, scope).toks));
            r.Some? && (Eval(r.value, row) <==> SomeBranchHolds(Plain(branches, scope), row))
  {
    HoistingKeepsQuery(branches, scope);
    PlainSingle(branches, scope);
    CompilationPreservesMeaning(branches, scope, row);
  }

  // ----- queries FTS5 rejects or reads otherwise -----

  /** A query of one item with an invalid text is rejected. */
  lemma InvalidRejected(item: Item, scope: Scope)
    requires !ItemValid(item) && !Cuts(ItemText(item))
    ensures ToFts5([[item]], scope).Expr? && ParseFts(Spell(ToFts5([[item]], scope).toks)).None?
  {
    ItemSays(item, scope);
    ItemVerdict(item, scope);
    LoneItem(item, scope);
    CompilationValid([[item]], scope);
  }

  lemma {:induction false} KeepOnly(s: string, drop: set<char>, c: char)
    requires c in Keep(s, drop)
    ensures c in s
  {
    if s[0] in drop || s[0] != c {
      KeepOnly(s[1..], drop, c);
    }
  }

  lemma FilterStem(key: string, value: string)
    requires value != ""
    ensures var s := key + ":" + value;
            && (EndsInStar(s) <==> EndsInStar(value))
            && (EndsInStar(s) ==> s[..|s| - 1] == key + (":" + value[..|value| - 1]))
            && s == key + (":" + value)
  {
  }

  lemma KeepFilter(key: string, stem: string)
    ensures Keep(key + (":" + stem), DROPPED) == Keep(key, DROPPED) + (":" + Keep(stem, DROPPED))
  {
    KeepAppend(key, ":" + stem, DROPPED);
    KeepAppend(":", stem, DROPPED);
    KeepClean(":", DROPPED);
  }

  /** A filter's text starts with its key and a colon, less the dropped characters. */
  lemma FilterText(key: string, value: string) returns (rest: string)
    requires value != ""
    ensures Sanitize(key + ":" + value) == Keep(key, DROPPED) + (":" + rest)
  {
    FilterStem(key, value);
    if EndsInStar(value) {
      var kept := Keep(value[..|value| - 1], DROPPED);
      KeepFilter(key, value[..|value| - 1]);
      rest := kept + "*";
      assert Keep(key, DROPPED) + (":" + kept) + "*" == Keep(key, DROPPED) + (":" + (kept + "*"));
    } else {
      rest := Keep(value, DROPPED);
      KeepFilter(key, value);
    }
  }

  /** A key as the query's lexer lets it through (internal/search/parser.go:60). */
  predicate IsKey(key: string) {
    forall c :: c in key ==> !IsSeparator(c) && c != ':' && c != '-'
  }

  /** A word, perhaps none, and a colon. */
  predicate StartsWithColon(ls: seq<Lexeme>) {
    ([Colon] <= ls) || (|ls| >= 2 && ls[1] == Colon)
  }

  lemma KeyLexed(k: string, rest: string)
    requires IsKey(k) && (forall c :: c in k ==> c != '*' && c != '(' && c != ')' && c != '"')
    ensures var x := Lex(k + (":" + rest)); x.more ==> StartsWithColon(x.ls)
  {
    var n, tail := WordLength(k), ":" + rest;
    ColonLexed(rest);
    if n == |k| {
      assert k == "" ==> k + tail == tail;
      if k != "" {
        WordLexed(k, tail);
      }
    } else {
      assert k[n] in k;
      OddLexed(k[n], k[n + 1..] + tail);
      assert k + tail == k[..n] + ([k[n]] + (k[n + 1..] + tail));
      if n > 0 {
        WordLexed(k[..n], [k[n]] + (k[n + 1..] + tail));
      } else {
        assert k[..n] + ([k[n]] + (k[n + 1..] + tail)) == [k[n]] + (k[n + 1..] + tail);
      }
    }
  }

  lemma OddLexed(c: char, rest: string)
    requires !BareChar(c) && !IsSeparator(c) && c !in {':', '-', '*', '(', ')', '"'}
    ensures !Lex([c] + rest).more && ([c] + rest)[0] == c
  {
  }

  lemma ColonBreaks(ls: seq<Lexeme>)
    requires StartsWithColon(ls)
    ensures !Chain([Str("title"), Colon] + ls)
  {
    ColumnFolds(Title);
    NamedPhrase("title", ls);
    if ls[0].Str? {
      assert ls[1..][0] == Colon;
      assert ReadPhrase(ls[1..]) == NoPhrase;
      assert !Chain(ls[1..]) && !Onward(ls[1..]);
    }
  }

  /** A filter with a key the compiler does not know is searched for as `key:value`, which FTS5 can read
      only if something else in it gets it quoted. */
  lemma UnknownFilterInvalid(key: string, value: string)
    requires IsKey(key) && value != "" && Lower(key) !in {"project", "tag", "in", "title", "body"}
    ensures var text := Sanitize(key + ":" + value);
            ItemValid(Filter(key, Some(value))) <==> GetsQuotes(text) && '\0' !in text
  {
    var text := Sanitize(key + ":" + value);
    var rest := FilterText(key, value);
    var k := Keep(key, DROPPED);
    assert text[|k|] == ':';
    if GetsQuotes(text) {
      if '\0' !in text {
        SingleValid(text);
      }
    } else {
      forall c | c in k ensures !IsSeparator(c) && c !in {':', '-', '*', '(', ')', '"'} {
        KeepOnly(key, DROPPED, c);
        assert c in text && !NeedsQuotes(c);
      }
      KeyLexed(k, rest);
      if TextLexed(text).more {
        ColonBreaks(TextLexed(text).ls);
      }
    }
  }

  lemma FooBarText()
    ensures Sanitize("foo" + ":" + "bar") == "foo:bar" && Lower("foo") == "foo"
  {
    assert "foo" + ":" + "bar" == "foo:bar";
    KeepClean("foo:bar", DROPPED);
  }

  lemma FooBarBare()
    ensures !GetsQuotes("foo:bar") && '\0' !in "foo:bar"
  {
    var s := "foo:bar";
    assert forall k :: 0 <= k < |s| ==> !NeedsQuotes(s[k]);
  }

  /** The query `foo:bar` compiles to something FTS5 rejects. */
  lemma FooBarRejected()
    ensures var q := [[Filter("foo", Some("bar"))]];
            ToFts5(q, Anywhere).Expr? && ParseFts(Spell(ToFts5(q, Anywhere).toks)).None?
  {
    FooBarText();
    FooBarBare();
    UnknownFilterInvalid("foo", "bar");
    InvalidRejected(Filter("foo", Some("bar")), Anywhere);
  }

  /** A text that is quoted and holds a NUL gets its query rejected: the string is never closed. */
  lemma QuotedNulRejected(item: Item, scope: Scope)
    requires GetsQuotes(ItemText(item)) && '\0' in ItemText(item)
    ensures ToFts5([[item]], scope).Expr? && ParseFts(Spell(ToFts5([[item]], scope).toks)).None?
  {
    InvalidRejected(item, scope);
  }

  /** One positive term in one column is read as its text. */
  lemma LoneTermReads(col: Column, text: string)
    requires text != "" && Sanitize(Keep(text, {'\''})) == text
    ensures var e, v := ToFts5([[Term(false, text)]], Only(col)), QuoteIfNeeded(text);
            && e.Expr?
            && ParseFts(Spell(e.toks))
               == if AtomVerdict(col, v) == Broken then None else Some(Whole(AtomAfter(START, col, v)))
  {
    var item, v := Term(false, text), QuoteIfNeeded(text);
    var live := [[Part(false, One(col, v))]];
    LoneItem(item, Only(col));
    assert Live([[item]], Only(col)) == live;
    LiveIsFromText([[item]], Only(col));
    AssembleParses(live);
    assert live[0][1..] == [];
    assert TailVerdict(live[0]) == AndThen(AtomVerdict(col, v), Complete);
  }

  lemma PlainKept(text: string, drop: set<char>, c: char)
    requires forall k :: 0 <= k < |text| ==> BareChar(text[k]) || text[k] == c
    requires c !in drop && forall d :: d in drop ==> !BareChar(d)
    ensures Keep(text, drop) == text
  {
    KeepClean(text, drop);
  }

  lemma PlainSanitized(text: string)
    requires text != "" && !EndsInStar(text) && Keep(text, DROPPED) == text && Keep(text, {'\''}) == text
    ensures Sanitize(Keep(text, {'\''})) == text
  {
  }

  lemma BareText(x: string, c: char, y: string)
    requires IsBareword(x) && IsBareword(y) && (c == '\t' || c == '\0')
    ensures var text := x + [c] + y;
            Sanitize(Keep(text, {'\''})) == text && !GetsQuotes(text) && '"' !in text
  {
    var text := x + [c] + y;
    assert forall k :: 0 <= k < |text| ==> BareChar(text[k]) || text[k] == c;
    assert text[|text| - 1] == y[|y| - 1];
    PlainKept(text, DROPPED, c);
    PlainKept(text, {'\''}, c);
    PlainSanitized(text);
  }

  lemma PairLexed(x: string, c: char, y: string)
    requires IsBareword(x) && IsBareword(y) && (c == '\t' || c == '\0')
    ensures Lex(x + [c] + y) == if c == '\t' then Lexed([Str(x), Str(y)], true) else Lexed([Str(x)], false)
  {
    var tail := [c] + y;
    assert tail[1..] == y;
    assert y + "" == y;
    BarewordLexed(y, "");
    WordLexed(x, tail);
    assert x + [c] + y == x + tail;
  }

  lemma PairReads(col: Column, v: string, x: string, y: string)
    requires Lex(ColumnValue(v)) == Lexed([Str(x), Str(y)], true)
    ensures AtomVerdict(col, v) == Complete
    ensures AtomAfter(START, col, v)
         == Apply(START, Both(Leaf(Phrase(These(ColumnName(col)), x, false)), Leaf(Phrase(Every, y, false))))
  {
    var p, ls := Phrase(These(ColumnName(col)), x, false), [Str(x), Str(y)];
    ColumnFolds(col);
    NamedPhrase(ColumnName(col), ls);
    assert ls[1..] == [Str(y)] && ls[1..][0] != Star;
    assert AtomLexed(col, v).ls == [Str(ColumnName(col)), Colon] + ls;
    assert ReadPhrase(AtomLexed(col, v).ls) == Phrased(p, [Str(y)]);
    PairStrung(Leaf(p), y);
    assert Chain(AtomLexed(col, v).ls);
  }

  lemma PairStrung(e: Fts, y: string)
    ensures Onward([Str(y)]) && Strung(START, e, [Str(y)]) == Apply(START, Both(e, Leaf(Phrase(Every, y, false))))
  {
    assert [Str(y)][1..] == [];
    assert ReadPhrase([Str(y)]) == Phrased(Phrase(Every, y, false), []);
    assert Chain([Str(y)]);
  }

  lemma PairValue(x: string, c: char, y: string)
    requires IsBareword(x) && IsBareword(y) && (c == '\t' || c == '\0')
    ensures Lex(ColumnValue(QuoteIfNeeded(x + [c] + y)))
         == if c == '\t' then Lexed([Str(x), Str(y)], true) else Lexed([Str(x)], false)
  {
    BareText(x, c, y);
    PairLexed(x, c, y);
    TextReads(x + [c] + y);
  }

  /** Two words with a tab between them, which the compiler does not quote: FTS5 looks for the first in
      the column and for the second anywhere. */
  lemma TabSplitsText(col: Column, x: string, y: string)
    requires IsBareword(x) && IsBareword(y)
    ensures var e := ToFts5([[Term(false, x + ['\t'] + y)]], Only(col));
            && e.Expr?
            && ParseFts(Spell(e.toks))
               == Some(Both(Leaf(Phrase(These(ColumnName(col)), x, false)), Leaf(Phrase(Every, y, false))))
  {
    var text := x + ['\t'] + y;
    BareText(x, '\t', y);
    PairValue(x, '\t', y);
    PairReads(col, QuoteIfNeeded(text), x, y);
    LoneTermReads(col, text);
  }

  lemma SomeRow(e: Fts, p: Phrase)
    requires e == Both(Leaf(Phrase(These("title"), "a", false)), Leaf(Phrase(Every, "b", false)))
    requires p.text == "a\tb"
    ensures exists row :: Eval(e, row) && !row(p)
  {
    var row := (p: Phrase) => p.text == "a" || p.text == "b";
    assert Eval(e, row) && !row(p);
  }

  /** A row with the first word in its title and the second only in its body is found all the same. */
  lemma TabMisread()
    ensures var e := ToFts5([[Term(false, "a\tb")]], Only(Title));
            && e.Expr? && ParseFts(Spell(e.toks)).Some?
            && exists row :: Eval(ParseFts(Spell(e.toks)).value, row) && !row(Wanted(Title, "a\tb"))
  {
    assert "a" + ['\t'] + "b" == "a\tb";
    TabSplitsText(Title, "a", "b");
    SomeRow(Both(Leaf(Phrase(These("title"), "a", false)), Leaf(Phrase(Every, "b", false))), Wanted(Title, "a\tb"));
  }

  lemma CutReads(col: Column, v: string, x: string)
    requires Lex(ColumnValue(v)) == Lexed([Str(x)], false)
    ensures AtomVerdict(col, v) == CutShort
    ensures AtomAfter(START, col, v) == Apply(START, Leaf(Phrase(These(ColumnName(col)), x, false)))
  {
    var p := Phrase(These(ColumnName(col)), x, false);
    ColumnFolds(col);
    NamedPhrase(ColumnName(col), [Str(x)]);
    assert [Str(x)][1..] == [];
    assert ReadPhrase(AtomLexed(col, v).ls) == Phrased(p, []);
    assert Chain(AtomLexed(col, v).ls);
    assert Strung(START, Leaf(p), []) == Apply(START, Leaf(p));
  }

  /** A NUL in an unquoted text ends the expression: it is then read up to there, and rejected inside
      parentheses. */
  lemma NulEndsText(col: Column, x: string, y: string)
    requires IsBareword(x) && IsBareword(y)
    ensures var q := [[Term(false, x + ['\0'] + y)]];
            && ToFts5(q, Only(col)).Expr? && ToFts5(q, Anywhere).Expr?
            && ParseFts(Spell(ToFts5(q, Only(col)).toks)) == Some(Leaf(Phrase(These(ColumnName(col)), x, false)))
            && ParseFts(Spell(ToFts5(q, Anywhere).toks)).None?
  {
    var text := x + ['\0'] + y;
    BareText(x, '\0', y);
    PairValue(x, '\0', y);
    CutReads(col, QuoteIfNeeded(text), x);
    LoneTermReads(col, text);
    TextReads(text);
    NulInParens(text);
  }

  lemma NulInParens(text: string)
    requires text != "" && Sanitize(Keep(text, {'\''})) == text && !TextLexed(text).more
    ensures var e := ToFts5([[Term(false, text)]], Anywhere); e.Expr? && ParseFts(Spell(e.toks)).None?
  {
    var item := Term(false, text);
    LoneItem(item, Anywhere);
    TextVerdict(Title, text);
    CompilationValid([[item]], Anywhere);
    assert [Part(false, Either(QuoteIfNeeded(text)))][1..] == [];
  }
}
