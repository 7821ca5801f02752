/** The compiler as the source runs it, with its loops, proved to compute `SearchQuery.ToFts5`. */
module SearchCompiler {
  import opened Text
  import opened SearchQuery
  import opened SearchHoist

  // ----- terms -----

  method SanitizeTerm(term: string) returns (r: string)
    ensures r == Sanitize(term)
  {
    var hasSuffix := EndsInStar(term);
    var body := if hasSuffix then term[..|term| - 1] else term;
    r := "";
    for i := 0 to |body|
      invariant r == Keep(body[..i], DROPPED)
    {
      assert body[..i + 1] == body[..i] + [body[i]];
      KeepAppend(body[..i], [body[i]], DROPPED);
      assert Keep([body[i]], DROPPED) == if body[i] in DROPPED then "" else [body[i]];
      if body[i] !in DROPPED {
        r := r + [body[i]];
      }
    }
    assert body[..|body|] == body;
    if r != "" && hasSuffix {
      r := r + "*";
    }
  }

  // ----- branches -----

  /** All parts of the branch, from where the conversion stands. */
  function PartsAhead(parts: seq<Part>, items: Branch, i: nat, scope: Scope): seq<Part>
    requires i <= |items|
  {
    parts + Parts(items[i..], scope)
  }

  lemma PartsStep(parts: seq<Part>, items: Branch, i: nat, scope: Scope)
    requires i < |items|
    ensures PartsAhead(parts, items, i, scope)
         == PartsAhead(parts + ItemParts(items[i], scope), items, i + 1, NextScope(items[i], scope))
  {
    assert items[i..][1..] == items[i + 1..];
    Assoc(parts, ItemParts(items[i], scope), Parts(items[i + 1..], NextScope(items[i], scope)));
  }

  lemma PartsEnds(parts: seq<Part>, items: Branch, initial: Scope, last: Scope)
    ensures PartsAhead([], items, 0, initial) == Parts(items, initial)
    ensures PartsAhead(parts, items, |items|, last) == parts
  {
    assert items[0..] == items && items[|items|..] == [];
    assert [] + Parts(items, initial) == Parts(items, initial);
  }

  /** Converts the items of one branch, tracking the scope, then joins the parts; the empty token
      string stands for a branch without parts. */
  method ConvertItems(items: Branch, initial: Scope) returns (toks: seq<Tok>)
    ensures toks == var parts := Parts(items, initial); if parts == [] then [] else JoinParts(parts)
  {
    var parts: seq<Part> := [];
    var scope := initial;
    for i := 0 to |items|
      invariant PartsAhead(parts, items, i, scope) == PartsAhead([], items, 0, initial)
    {
      PartsStep(parts, items, i, scope);
      parts := parts + ItemParts(items[i], scope);
      scope := NextScope(items[i], scope);
    }
    PartsEnds(parts, items, initial, scope);
    toks := JoinLoop(parts);
  }

  lemma OneItem(item: Item, scope: Scope)
    ensures Parts([item], scope) == ItemParts(item, scope) && ScopeAfter([item], scope) == NextScope(item, scope)
  {
    assert [item][1..] == [];
    assert Parts([], NextScope(item, scope)) == [];
  }

  function Separator(part: seq<Tok>): seq<Tok> {
    if StartsWithNot(part) then [Gap] else [And]
  }

  lemma JoinStep(toks: seq<Tok>, parts: seq<Part>, i: nat)
    requires i < |parts|
    ensures toks + JoinTail(parts[i..])
         == toks + (Separator(PartToks(parts[i])) + PartToks(parts[i])) + JoinTail(parts[i + 1..])
  {
    assert parts[i..][1..] == parts[i + 1..];
  }

  method JoinLoop(parts: seq<Part>) returns (toks: seq<Tok>)
    ensures toks == if parts == [] then [] else JoinParts(parts)
  {
    if parts == [] {
      return [];
    }
    ghost var all := JoinParts(parts);
    toks := PartToks(parts[0]);
    for i := 1 to |parts|
      invariant toks + JoinTail(parts[i..]) == all
    {
      JoinStep(toks, parts, i);
      var part := PartToks(parts[i]);
      toks := toks + (Separator(part) + part);
    }
  }

  // ----- hoisting -----

  lemma {:induction false} HoistableAppend(a: Branch, item: Item)
    ensures Hoistable(a + [item]) == Hoistable(a) + (if IsHoistable(item) then [item] else [])
  {
    if a == [] {
      assert a + [item] == [item];
    } else {
      assert (a + [item])[1..] == a[1..] + [item];
      HoistableAppend(a[1..], item);
    }
  }

  lemma {:induction false} LeadingIs(items: Branch, n: nat)
    requires n <= |items| && Silent(items[..n])
    requires n < |items| ==> !(IsHoistable(items[n]) || IsIn(items[n]))
    ensures Leading(items) == n
  {
    assert forall k :: 0 <= k < n ==> items[k] == items[..n][k];
  }

  /** Scans the first branch for its opening filters. */
  method ExtractCommon(first: Branch, scope: Scope) returns (common: Branch, inherited: Scope)
    ensures var n := Leading(first);
            && common == (if n < |first| && first[n].Term? then Hoistable(first[..n]) else [])
            && inherited == ScopeAfter(first[..n], scope)
  {
    common, inherited := [], scope;
    var hasTerms, i := false, 0;
    while i < |first|
      invariant 0 <= i <= |first| && Silent(first[..i]) && !hasTerms
      invariant common == Hoistable(first[..i]) && inherited == ScopeAfter(first[..i], scope)
    {
      var item := first[i];
      if !IsHoistable(item) && !IsIn(item) {
        hasTerms := item.Term?;
        break;
      }
      assert first[..i + 1] == first[..i] + [item];
      HoistableAppend(first[..i], item);
      ScopeAppend(first[..i], [item], scope);
      OneItem(item, inherited);
      if IsHoistable(item) {
        common := common + [item];
      } else if SetsScope(item).Some? {
        inherited := SetsScope(item).value;
      }
      i := i + 1;
    }
    LeadingIs(first, i);
    if !hasTerms {
      common := [];
    }
  }

  // ----- the whole query -----

  method JoinUnits(units: seq<seq<Tok>>) returns (toks: seq<Tok>)
    requires units != []
    ensures toks == Unit(units[0]) + OrTail(units[1..])
  {
    toks := Unit(units[0]);
    for i := 1 to |units|
      invariant toks + OrTail(units[i..]) == Unit(units[0]) + OrTail(units[1..])
    {
      assert units[i..][1..] == units[i + 1..];
      toks := toks + ([Or] + Unit(units[i]));
    }
    assert units[|units|..] == [];
  }

  lemma UnitsAppend(live: seq<seq<Part>>, parts: seq<Part>)
    requires parts != [] && NoneEmpty(live)
    ensures Units(live + [parts]) == Units(live) + [JoinParts(parts)]
  {
  }

  function LiveAhead(live: seq<seq<Part>>, branches: seq<Branch>, i: nat, scope: Scope): seq<seq<Part>>
    requires i <= |branches|
  {
    live + NonEmptyOnes(AllHoisted(branches, scope)[i..])
  }

  lemma LiveStep(live: seq<seq<Part>>, branches: seq<Branch>, i: nat, scope: Scope)
    requires i < |branches|
    ensures LiveAhead(live, branches, i, scope)
         == LiveAhead(live + Conjunction(HoistedParts(branches, i, scope)), branches, i + 1, scope)
  {
    var xs := AllHoisted(branches, scope);
    assert xs[i..][1..] == xs[i + 1..];
    Assoc(live, Conjunction(xs[i]), NonEmptyOnes(xs[i + 1..]));
  }

  lemma LiveEnds(live: seq<seq<Part>>, branches: seq<Branch>, scope: Scope)
    ensures LiveAhead([], branches, 0, scope) == Live(branches, scope)
    ensures LiveAhead(live, branches, |branches|, scope) == live
  {
    var xs := AllHoisted(branches, scope);
    assert xs[0..] == xs && xs[|branches|..] == [];
    assert [] + Live(branches, scope) == Live(branches, scope) && live + [] == live;
  }

  lemma UnitsMore(live: seq<seq<Part>>, parts: seq<Part>)
    requires NoneEmpty(live)
    ensures NoneEmpty(live + Conjunction(parts)) && (parts != [] ==> JoinParts(parts) != [])
    ensures Units(live + Conjunction(parts)) == Units(live) + if parts == [] then [] else [JoinParts(parts)]
  {
    if parts == [] {
      assert live + Conjunction(parts) == live;
    } else {
      UnitsAppend(live, parts);
    }
  }

  lemma CommonFits(branches: seq<Branch>, scope: Scope)
    requires branches != []
    ensures |HoistOf(branches, scope).common| <= |branches[0]|
  {
  }

  /** Converts one branch, after the hoisted filters and from the hoisted scope. */
  method ConvertBranch(branches: seq<Branch>, i: nat, scope: Scope, h: Hoist) returns (toks: seq<Tok>)
    requires i < |branches| && h == HoistOf(branches, scope)
    ensures toks == var parts := HoistedParts(branches, i, scope); if parts == [] then [] else JoinParts(parts)
  {
    CommonFits(branches, scope);
    var start := if i == 0 then StartIndex(branches[0], h, scope) else 0;
    toks := ConvertItems(h.common + branches[i][start..], h.scope);
  }

  /** Converts every branch and keeps those with parts. */
  method ConvertBranches(branches: seq<Branch>, scope: Scope, h: Hoist)
    returns (units: seq<seq<Tok>>)
    requires h == HoistOf(branches, scope)
    ensures units == Units(Live(branches, scope))
  {
    units := [];
    ghost var live: seq<seq<Part>> := [];
    for i := 0 to |branches|
      invariant NoneEmpty(live) && units == Units(live)
      invariant LiveAhead(live, branches, i, scope) == LiveAhead([], branches, 0, scope)
    {
      var toks := ConvertBranch(branches, i, scope, h);
      LiveStep(live, branches, i, scope);
      ghost var parts := HoistedParts(branches, i, scope);
      UnitsMore(live, parts);
      live := live + Conjunction(parts);
      if toks != [] {
        units := units + [toks];
      }
    }
    LiveEnds(live, branches, scope);
  }

  method Compile(branches: seq<Branch>, scope: Scope) returns (r: Compiled)
    ensures r == ToFts5(branches, scope)
  {
    var h := Hoist([], scope);
    if |branches| > 1 {
      var common, inherited := ExtractCommon(branches[0], scope);
      h := Hoist(common, inherited);
    }
    ghost var live := Live(branches, scope);
    var units := ConvertBranches(branches, scope, h);
    if units == [] {
      r := Wildcard;
    } else if |units| == 1 {
      r := Expr(units[0]);
    } else {
      var toks := JoinUnits(units);
      r := Expr(toks);
    }
  }
}
