/** Filter hoisting: for a query with several branches, the filters and the scope that open the
    first branch are carried over to all. */
module SearchHoist {
  import opened Text
  import opened SearchQuery

  lemma {:induction false} ScopeAppend(a: Branch, b: Branch, scope: Scope)
    ensures ScopeAfter(a + b, scope) == ScopeAfter(b, ScopeAfter(a, scope))
    decreases a
  {
    if a == [] {
      assert a + b == b;
    } else {
      assert (a + b)[1..] == a[1..] + b;
      ScopeAppend(a[1..], b, NextScope(a[0], scope));
    }
  }

  lemma {:induction false} PartsAppend(a: Branch, b: Branch, scope: Scope)
    ensures Parts(a + b, scope) == Parts(a, scope) + Parts(b, ScopeAfter(a, scope))
    decreases a
  {
    if a == [] {
      assert a + b == b;
    } else {
      var rest, next := a[1..], NextScope(a[0], scope);
      assert (a + b)[1..] == rest + b && (a + b)[0] == a[0];
      PartsAppend(rest, b, next);
      Assoc(ItemParts(a[0], scope), Parts(rest, next), Parts(b, ScopeAfter(rest, next)));
    }
  }

  /** Project, tag and scope filters contribute no part of their own. */
  lemma {:induction false} FiltersSilent(items: Branch, scope: Scope)
    requires forall k :: 0 <= k < |items| ==> IsHoistable(items[k]) || IsIn(items[k])
    ensures Parts(items, scope) == []
    ensures (forall k :: 0 <= k < |items| ==> IsHoistable(items[k])) ==> ScopeAfter(items, scope) == scope
    decreases items
  {
    if items != [] {
      FiltersSilent(items[1..], NextScope(items[0], scope));
      assert IsHoistable(items[0]) ==> !IsIn(items[0]);
    }
  }

  /** The scope in force is the one set last, or the initial one if none was set. */
  lemma {:induction false} ScopeIsLast(items: Branch, scope: Scope)
    ensures (forall k :: 0 <= k < |items| ==> SetsScope(items[k]).None?) ==> ScopeAfter(items, scope) == scope
    ensures forall k :: 0 <= k < |items| && SetsScope(items[k]).Some?
              && (forall j :: k < j < |items| ==> SetsScope(items[j]).None?)
              ==> ScopeAfter(items, scope) == SetsScope(items[k]).value
    decreases items
  {
    if items != [] {
      var rest := items[1..];
      ScopeIsLast(rest, NextScope(items[0], scope));
      forall k | 0 <= k < |items| && SetsScope(items[k]).Some?
                 && (forall j :: k < j < |items| ==> SetsScope(items[j]).None?)
        ensures ScopeAfter(items, scope) == SetsScope(items[k]).value
      {
        assert forall j :: 0 <= j < |rest| ==> rest[j] == items[j + 1];
        if k > 0 {
          assert SetsScope(rest[k - 1]).Some?;
        }
      }
      assert forall j :: 0 <= j < |rest| ==> rest[j] == items[j + 1];
    }
  }

  /** Once a scope has been set last among `a + b`, running `b` again from it changes nothing. */
  lemma {:induction false} ScopeAgain(a: Branch, b: Branch, scope: Scope)
    ensures ScopeAfter(b, ScopeAfter(a + b, scope)) == ScopeAfter(a + b, scope)
  {
    ScopeAppend(a, b, scope);
    Idempotent(b, ScopeAfter(a, scope));
  }

  lemma {:induction false} Idempotent(items: Branch, scope: Scope)
    ensures ScopeAfter(items, ScopeAfter(items, scope)) == ScopeAfter(items, scope)
    decreases items
  {
    if items != [] {
      Overwritten(items[1..], NextScope(items[0], scope), NextScope(items[0], ScopeAfter(items, scope)));
      Idempotent(items[1..], NextScope(items[0], scope));
    }
  }

  /** Either nothing sets a scope, or where one starts does not matter. */
  lemma {:induction false} Overwritten(items: Branch, s: Scope, t: Scope)
    ensures (ScopeAfter(items, s) == s && ScopeAfter(items, t) == t) || ScopeAfter(items, s) == ScopeAfter(items, t)
    decreases items
  {
    if items != [] {
      Overwritten(items[1..], NextScope(items[0], s), NextScope(items[0], t));
    }
  }

  /** If the opening filters change the scope, one of them is an `in:` filter. */
  lemma {:induction false} ChangeNeedsIn(items: Branch, scope: Scope)
    requires ScopeAfter(items, scope) != scope
    ensures FirstIn(items) < |items|
    decreases items
  {
    if items != [] && !IsIn(items[0]) {
      ChangeNeedsIn(items[1..], scope);
    }
  }

  lemma {:induction false} FirstInPrefix(items: Branch, n: nat)
    requires n <= |items| && FirstIn(items[..n]) < n
    ensures FirstIn(items) == FirstIn(items[..n])
    decreases items
  {
    if !IsIn(items[0]) {
      assert items[..n][1..] == items[1..][..n - 1];
      FirstInPrefix(items[1..], n - 1);
    }
  }

  /** The resumption point lies within the opening filters. */
  lemma StartsWithinLeading(branches: seq<Branch>, scope: Scope)
    requires |branches| > 1
    ensures var h := HoistOf(branches, scope);
            |h.common| <= |branches[0]| && StartIndex(branches[0], h, scope) <= Leading(branches[0])
  {
    var first := branches[0];
    var n := Leading(first);
    var h := HoistOf(branches, scope);
    assert |Hoistable(first[..n])| <= |first[..n]|;
    if h.scope != scope {
      ChangeNeedsIn(first[..n], scope);
      FirstInPrefix(first, n);
    }
  }

  predicate Silent(items: Branch) {
    forall k :: 0 <= k < |items| ==> IsHoistable(items[k]) || IsIn(items[k])
  }

  /** Resuming anywhere within the opening filters, with the scope they end in, loses nothing. */
  lemma Resumed(skipped: Branch, lead: Branch, tail: Branch, scope: Scope)
    requires Silent(skipped + lead) && Silent(lead)
    ensures Parts(lead + tail, ScopeAfter(skipped + lead, scope)) == Parts(skipped + lead + tail, scope)
  {
    var h := ScopeAfter(skipped + lead, scope);
    PartsAppend(skipped + lead, tail, scope);
    FiltersSilent(skipped + lead, scope);
    PartsAppend(lead, tail, h);
    FiltersSilent(lead, h);
    ScopeAgain(skipped, lead, scope);
  }

  lemma CommonSilent(common: Branch, items: Branch, scope: Scope)
    requires forall k :: 0 <= k < |common| ==> IsHoistable(common[k])
    ensures Parts(common + items, scope) == Parts(items, scope)
  {
    FiltersSilent(common, scope);
    PartsAppend(common, items, scope);
  }

  lemma Divided(items: Branch, s: nat, n: nat)
    requires s <= n <= |items|
    ensures items[..n] == items[..s] + items[s..n]
    ensures items[s..] == items[s..n] + items[n..]
    ensures items == items[..s] + items[s..n] + items[n..]
  {
  }

  /** Hoisting is a no-op on the first branch: skipping ahead and starting from the hoisted scope
      gives the same parts as the branch on its own. */
  lemma HoistingFirstBranch(branches: seq<Branch>, scope: Scope)
    requires |branches| > 1
    ensures HoistedParts(branches, 0, scope) == Parts(branches[0], scope)
  {
    var first, h := branches[0], HoistOf(branches, scope);
    var n, s := Leading(first), StartIndex(first, h, scope);
    StartsWithinLeading(branches, scope);
    Divided(first, s, n);
    assert Silent(first[..n]) && Silent(first[s..n]);
    Resumed(first[..s], first[s..n], first[n..], scope);
    CommonSilent(h.common, first[s..], h.scope);
  }

  /** The scope a branch starts from: the later ones take over the scope that opens the first. */
  function OwnScope(branches: seq<Branch>, i: nat, scope: Scope): Scope
    requires i < |branches|
  {
    if i == 0 then scope else ScopeAfter(branches[0][..Leading(branches[0])], scope)
  }

  /** A branch converted on its own. */
  function PlainParts(branches: seq<Branch>, i: nat, scope: Scope): seq<Part>
    requires i < |branches|
  {
    Parts(branches[i], OwnScope(branches, i, scope))
  }

  /** Every branch reaches FTS5 as if converted on its own from its starting scope. */
  lemma HoistingKeepsBranch(branches: seq<Branch>, i: nat, scope: Scope)
    requires i < |branches|
    ensures HoistedParts(branches, i, scope) == PlainParts(branches, i, scope)
  {
    if |branches| == 1 {
      assert [] + branches[0][0..] == branches[0];
    } else if i == 0 {
      HoistingFirstBranch(branches, scope);
    } else {
      assert branches[i][0..] == branches[i];
      CommonSilent(HoistOf(branches, scope).common, branches[i], HoistOf(branches, scope).scope);
    }
  }

  function AllPlain(branches: seq<Branch>, scope: Scope): seq<seq<Part>> {
    seq(|branches|, i requires 0 <= i < |branches| => PlainParts(branches, i, scope))
  }

  /** The reference reading: each branch by itself. */
  function Plain(branches: seq<Branch>, scope: Scope): seq<seq<Part>> {
    NonEmptyOnes(AllPlain(branches, scope))
  }

  /** The conjunctions that reach FTS5 are those of the query read branch by branch. */
  lemma HoistingKeepsQuery(branches: seq<Branch>, scope: Scope)
    ensures Live(branches, scope) == Plain(branches, scope)
  {
    forall i | 0 <= i < |branches| ensures AllHoisted(branches, scope)[i] == AllPlain(branches, scope)[i] {
      HoistingKeepsBranch(branches, i, scope);
    }
    assert AllHoisted(branches, scope) == AllPlain(branches, scope);
  }
}
