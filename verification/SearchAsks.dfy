/** What a query asks for, item by item (internal/search/fts5.go), and the proof that the compiled
    expression finds exactly that. */
module SearchAsks {
  import opened Text
  import opened SearchQuery
  import opened SearchGrammar
  import opened SearchMeaning
  import opened SearchHoist
  import opened SearchReadable

  // ----- the meaning of an item -----

  /** The column an `in:` filter names, if it names one. */
  function NamedColumn(item: Item): Option<Column> {
    if !item.Filter? || Lower(item.key) != "in" || item.value.None? then None
    else if Lower(item.value.value) == "title" then Some(Title)
    else if Lower(item.value.value) == "body" then Some(Body)
    else None
  }

  /** Where the items from `k` on look: in the column named last before it, or as at the start. */
  function ScopeBefore(items: Branch, k: nat, start: Scope): Scope
    requires k <= |items|
  {
    if k == 0 then start
    else if NamedColumn(items[k - 1]).Some? then Only(NamedColumn(items[k - 1]).value)
    else ScopeBefore(items, k - 1, start)
  }

  /** The text is where the scope looks; without a column, in the title or in the body. */
  predicate Found(text: string, scope: Scope, row: Phrase -> bool) {
    match scope
    case Only(col) => row(Wanted(col, text))
    case Anywhere => row(Wanted(Title, text)) || row(Wanted(Body, text))
  }

  /** What an item asks of a row. Project, tag and `in:` filters, and texts of which nothing is left, ask
      nothing; `title:` and `body:` look in their column; anything else looks where the scope says, and a
      negated term asks for the opposite. */
  predicate ItemHolds(item: Item, scope: Scope, row: Phrase -> bool) {
    var text := ItemText(item);
    if text == "" then true
    else match item
      case Filter(key, _) =>
        if Lower(key) == "title" then row(Wanted(Title, text))
        else if Lower(key) == "body" then row(Wanted(Body, text))
        else Found(text, scope, row)
      case Term(negated, _) => Found(text, scope, row) != negated
  }

  predicate AllHold(items: Branch, start: Scope, row: Phrase -> bool) {
    forall k :: 0 <= k < |items| ==> ItemHolds(items[k], ScopeBefore(items, k, start), row)
  }

  predicate Asks(items: Branch) {
    exists k :: 0 <= k < |items| && ItemText(items[k]) != ""
  }

  /** The `project:`, `tag:` and `in:` filters that open a branch. */
  function Opening(items: Branch): (n: nat)
    ensures n <= |items|
  {
    if items != [] && items[0].Filter? && Lower(items[0].key) in {"project", "tag", "in"} then 1 + Opening(items[1..]) else 0
  }

  /** Where a branch starts: the first one at the query's scope, the others at the scope the filters that
      open the first one leave. */
  function StartOf(branches: seq<Branch>, i: nat, scope: Scope): Scope
    requires i < |branches|
  {
    if i == 0 then scope else ScopeBefore(branches[0], Opening(branches[0]), scope)
  }

  /** The query is met by a row: some branch that asks for something has all its items hold. */
  predicate QueryHolds(branches: seq<Branch>, scope: Scope, row: Phrase -> bool) {
    exists i :: 0 <= i < |branches| && Asks(branches[i]) && AllHold(branches[i], StartOf(branches, i, scope), row)
  }

  // ----- the parts of a branch say that -----

  lemma StepsScope(item: Item, scope: Scope)
    ensures NextScope(item, scope) == if NamedColumn(item).Some? then Only(NamedColumn(item).value) else scope
  {
  }

  lemma {:induction false} ScopeShifts(items: Branch, k: nat, start: Scope)
    requires items != [] && k < |items|
    ensures ScopeBefore(items, k + 1, start) == ScopeBefore(items[1..], k, NextScope(items[0], start))
    decreases k
  {
    StepsScope(items[0], start);
    if k > 0 {
      ScopeShifts(items, k - 1, start);
      assert items[1..][k - 1] == items[k];
    }
  }

  lemma {:induction false} ScopeIsLastNamed(items: Branch, start: Scope)
    ensures ScopeAfter(items, start) == ScopeBefore(items, |items|, start)
    decreases items
  {
    if items != [] {
      ScopeIsLastNamed(items[1..], NextScope(items[0], start));
      ScopeShifts(items, |items| - 1, start);
    }
  }

  lemma {:induction false} ScopeOfPrefix(items: Branch, n: nat, k: nat, start: Scope)
    requires k <= n <= |items|
    ensures ScopeBefore(items[..n], k, start) == ScopeBefore(items, k, start)
    decreases k
  {
    if k > 0 {
      ScopeOfPrefix(items, n, k - 1, start);
    }
  }

  lemma AllHoldStep(items: Branch, start: Scope, row: Phrase -> bool)
    requires items != []
    ensures AllHold(items, start, row)
       <==> ItemHolds(items[0], start, row) && AllHold(items[1..], NextScope(items[0], start), row)
  {
    var rest, next := items[1..], NextScope(items[0], start);
    forall k | 0 <= k < |rest|
      ensures ItemHolds(rest[k], ScopeBefore(rest, k, next), row) == ItemHolds(items[k + 1], ScopeBefore(items, k + 1, start), row)
    {
      ScopeShifts(items, k, start);
    }
    if ItemHolds(items[0], start, row) && AllHold(rest, next, row) {
      forall k | 0 <= k < |items| ensures ItemHolds(items[k], ScopeBefore(items, k, start), row) {
        assert k > 0 ==> ItemHolds(rest[k - 1], ScopeBefore(rest, k - 1, next), row);
      }
    }
    if AllHold(items, start, row) {
      assert ItemHolds(items[0], ScopeBefore(items, 0, start), row);
      forall k | 0 <= k < |rest| ensures ItemHolds(rest[k], ScopeBefore(rest, k, next), row) {
        assert ItemHolds(items[k + 1], ScopeBefore(items, k + 1, start), row);
      }
    }
  }

  /** The part of an item asks what the item asks. */
  lemma ItemPartHolds(item: Item, scope: Scope, row: Phrase -> bool)
    requires ItemSingle(item)
    ensures BranchHolds(ItemParts(item, scope), row) <==> ItemHolds(item, scope, row)
  {
    var text, parts := ItemText(item), ItemParts(item, scope);
    ItemSays(item, scope);
    if text != "" {
      TextRecovered(text);
      assert parts == [parts[0]];
      assert BranchHolds(parts, row) <==> PartHolds(parts[0], row);
    }
  }

  lemma HoldsAppend(a: seq<Part>, b: seq<Part>, row: Phrase -> bool)
    ensures BranchHolds(a + b, row) <==> BranchHolds(a, row) && BranchHolds(b, row)
  {
    var all := a + b;
    if BranchHolds(a, row) && BranchHolds(b, row) {
      forall k | 0 <= k < |all| ensures PartHolds(all[k], row) {
        assert all[k] == if k < |a| then a[k] else b[k - |a|];
      }
    }
    if BranchHolds(all, row) {
      forall k | 0 <= k < |a| ensures PartHolds(a[k], row) {
        assert all[k] == a[k];
      }
      forall k | 0 <= k < |b| ensures PartHolds(b[k], row) {
        assert all[|a| + k] == b[k];
      }
    }
  }

  lemma {:induction false} PartsAsk(items: Branch, start: Scope, row: Phrase -> bool)
    requires BranchTextsSingle(items)
    ensures BranchHolds(Parts(items, start), row) <==> AllHold(items, start, row)
    decreases items
  {
    if items != [] {
      var next := NextScope(items[0], start);
      ItemPartHolds(items[0], start, row);
      PartsAsk(items[1..], next, row);
      HoldsAppend(ItemParts(items[0], start), Parts(items[1..], next), row);
      AllHoldStep(items, start, row);
    }
  }

  lemma {:induction false} PartsIfAsks(items: Branch, start: Scope)
    ensures Parts(items, start) != [] <==> Asks(items)
    decreases items
  {
    if items != [] {
      var next := NextScope(items[0], start);
      ItemSays(items[0], start);
      PartsIfAsks(items[1..], next);
      if k :| 0 <= k < |items| && ItemText(items[k]) != "" {
        assert k > 0 ==> items[1..][k - 1] == items[k];
      }
      if k :| 0 <= k < |items[1..]| && ItemText(items[1..][k]) != "" {
        assert items[k + 1] == items[1..][k];
      }
    }
  }

  // ----- the query -----

  lemma {:induction false} OpeningIsLeading(items: Branch)
    ensures Opening(items) == Leading(items)
  {
    if items != [] {
      OpeningIsLeading(items[1..]);
    }
  }

  lemma OwnScopeIs(branches: seq<Branch>, i: nat, scope: Scope)
    requires i < |branches|
    ensures OwnScope(branches, i, scope) == StartOf(branches, i, scope)
  {
    var first := branches[0];
    OpeningIsLeading(first);
    ScopeIsLastNamed(first[..Leading(first)], scope);
    ScopeOfPrefix(first, Leading(first), Leading(first), scope);
  }

  lemma {:induction false} SomeOfOnes(xs: seq<seq<Part>>, row: Phrase -> bool)
    ensures SomeBranchHolds(NonEmptyOnes(xs), row) <==> exists k :: 0 <= k < |xs| && xs[k] != [] && BranchHolds(xs[k], row)
  {
    if xs != [] {
      SomeOfOnes(xs[1..], row);
      var rest := NonEmptyOnes(xs[1..]);
      if xs[0] == [] {
        assert NonEmptyOnes(xs) == rest;
      } else {
        assert NonEmptyOnes(xs)[1..] == rest;
        SomeStep(NonEmptyOnes(xs), row);
      }
      if k :| 0 <= k < |xs| && xs[k] != [] && BranchHolds(xs[k], row) {
        assert k > 0 ==> xs[1..][k - 1] == xs[k];
      }
      if k :| 0 <= k < |xs[1..]| && xs[1..][k] != [] && BranchHolds(xs[1..][k], row) {
        assert xs[k + 1] == xs[1..][k];
      }
    }
  }

  lemma BranchAsked(branches: seq<Branch>, i: nat, scope: Scope, row: Phrase -> bool)
    requires i < |branches| && BranchTextsSingle(branches[i])
    ensures var parts := AllPlain(branches, scope)[i];
            && (parts != [] <==> Asks(branches[i]))
            && (BranchHolds(parts, row) <==> AllHold(branches[i], StartOf(branches, i, scope), row))
  {
    OwnScopeIs(branches, i, scope);
    PartsAsk(branches[i], OwnScope(branches, i, scope), row);
    PartsIfAsks(branches[i], OwnScope(branches, i, scope));
  }

  lemma PlainAsks(branches: seq<Branch>, scope: Scope, row: Phrase -> bool)
    requires QuerySingle(branches)
    ensures SomeBranchHolds(Plain(branches, scope), row) <==> QueryHolds(branches, scope, row)
  {
    var xs := AllPlain(branches, scope);
    SomeOfOnes(xs, row);
    forall i | 0 <= i < |branches|
      ensures (xs[i] != [] && BranchHolds(xs[i], row)) <==> (Asks(branches[i]) && AllHold(branches[i], StartOf(branches, i, scope), row))
    {
      BranchAsked(branches, i, scope, row);
    }
    if i :| 0 <= i < |xs| && xs[i] != [] && BranchHolds(xs[i], row) {
      assert Asks(branches[i]) && AllHold(branches[i], StartOf(branches, i, scope), row);
    }
  }

  lemma {:induction false} OnesExist(xs: seq<seq<Part>>)
    ensures NonEmptyOnes(xs) != [] <==> exists k :: 0 <= k < |xs| && xs[k] != []
  {
    if xs != [] {
      OnesExist(xs[1..]);
      if k :| 0 <= k < |xs| && xs[k] != [] {
        assert k > 0 ==> xs[1..][k - 1] == xs[k];
      }
      if k :| 0 <= k < |xs[1..]| && xs[1..][k] != [] {
        assert xs[k + 1] == xs[1..][k];
      }
    }
  }

  /** Everything is asked for exactly when no branch asks for anything. */
  lemma WildcardIff(branches: seq<Branch>, scope: Scope)
    ensures ToFts5(branches, scope).Wildcard? <==> forall i :: 0 <= i < |branches| ==> !Asks(branches[i])
  {
    var xs := AllPlain(branches, scope);
    HoistingKeepsQuery(branches, scope);
    OnesExist(xs);
    forall i | 0 <= i < |branches| ensures xs[i] != [] <==> Asks(branches[i]) {
      PartsIfAsks(branches[i], OwnScope(branches, i, scope));
    }
  }

  /** The compiled query finds what was asked for: when every text is quoted without a NUL or is a word and
      no branch opens with a negated term, the emitted string is a valid expression, and it matches a row
      if and only if some branch that asks for something has all its items hold. */
  lemma CompiledQueryFinds(branches: seq<Branch>, scope: Scope, row: Phrase -> bool)
    requires QuerySingle(branches) && exists i :: 0 <= i < |branches| && Asks(branches[i])
    ensures ToFts5(branches, scope).Expr?
    ensures var r := ParseFts(Spell(ToFts5(branches, scope).toks));
            r.Some? && (Eval(r.value, row) <==> QueryHolds(branches, scope, row))
  {
    WildcardIff(branches, scope);
    HoistingKeepsQuery(branches, scope);
    CompiledQueryMeans(branches, scope, row);
    PlainAsks(branches, scope, row);
  }
}
