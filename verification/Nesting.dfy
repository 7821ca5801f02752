/** How list items are nested by indentation (the `stack` of `MarkdownToBlocks`): a stack-based
    pass, the rule it implements, and the forest that results. */
module ListNesting {

  /** One parsed block in line order: a list item with its indentation, or any other block, which
      always stands at the top level and ends the list before it. */
  datatype Item<T> = Root(block: T) | ListItem(indent: nat, block: T)

  datatype Node<T> = Node(block: T, children: seq<Node<T>>)

  // ----- the rule -----

  /** The nearest item at or before `i`, in the same run, with an indent below `x`; -1 if none. */
  function Nearest<T>(items: seq<Item<T>>, x: int, i: int): (p: int)
    requires i < |items|
    ensures -1 <= p && (p >= 0 ==> p <= i && items[p].ListItem? && items[p].indent < x)
  {
    if i < 0 || items[i].Root? then -1
    else if items[i].indent < x then i
    else Nearest(items, x, i - 1)
  }

  /** The parent of item `k`: the nearest earlier list item of its run with a strictly smaller indent. */
  function Parent<T>(items: seq<Item<T>>, k: int): (p: int)
    requires 0 <= k < |items|
    ensures -1 <= p < k
  {
    if items[k].Root? then -1 else Nearest(items, items[k].indent, k - 1)
  }

  /** What "nearest" means: everything between the parent and the item is at least as deep. */
  lemma {:induction false} NothingNearer<T>(items: seq<Item<T>>, x: int, i: int, j: int)
    requires 0 <= j <= i < |items| && Nearest(items, x, i) < j
    requires forall t :: j <= t <= i ==> items[t].ListItem?
    ensures items[j].indent >= x
    decreases i
  {
    if j < i {
      NothingNearer(items, x, i - 1, j);
    }
  }

  predicate Linked<T>(items: seq<Item<T>>, parents: seq<int>) {
    |parents| == |items| && forall k :: 0 <= k < |items| ==> parents[k] == Parent(items, k)
  }

  // ----- the stack -----

  /** The path from the top level to item `k`: what the stack holds when `k` is the last item. */
  function Path<T>(items: seq<Item<T>>, k: int): (path: seq<int>)
    requires k < |items|
    ensures k >= 0 && items[k].ListItem? ==> path != [] && path[|path| - 1] == k
    ensures k < 0 || items[k].Root? ==> path == []
    ensures forall a :: 0 <= a < |path| ==> 0 <= path[a] <= k && items[path[a]].ListItem?
  {
    if k < 0 || items[k].Root? then [] else Path(items, Parent(items, k)) + [k]
  }

  /** Indents grow strictly along the stack. */
  lemma {:induction false} StackIncreasing<T>(items: seq<Item<T>>, k: int)
    requires k < |items|
    ensures forall a, b :: 0 <= a < b < |Path(items, k)| ==>
              items[Path(items, k)[a]].indent < items[Path(items, k)[b]].indent
    decreases k
  {
    if k >= 0 && items[k].ListItem? {
      var p := Parent(items, k);
      StackIncreasing(items, p);
      assert Path(items, k) == Path(items, p) + [k];
      if p >= 0 {
        assert Path(items, p)[|Path(items, p)| - 1] == p;
      }
    }
  }

  /** Passing over a deeper item may jump straight to that item's own parent. */
  lemma {:induction false} NearestJump<T>(items: seq<Item<T>>, x: int, y: int, i: int)
    requires x <= y && i < |items|
    ensures Nearest(items, x, i) == Nearest(items, x, Nearest(items, y, i))
    decreases i
  {
    if i >= 0 && items[i].ListItem? && items[i].indent >= y {
      NearestJump(items, x, y, i - 1);
    }
  }

  lemma {:induction false} NearestKept<T>(items: seq<Item<T>>, item: Item<T>, x: int, i: int)
    requires i < |items|
    ensures Nearest(items + [item], x, i) == Nearest(items, x, i)
    decreases i
  {
    if i >= 0 {
      NearestKept(items, item, x, i - 1);
    }
  }

  lemma ParentKept<T>(items: seq<Item<T>>, item: Item<T>, k: int)
    requires 0 <= k < |items|
    ensures Parent(items + [item], k) == Parent(items, k)
  {
    if items[k].ListItem? {
      NearestKept(items, item, items[k].indent, k - 1);
    }
  }

  lemma {:induction false} PathKept<T>(items: seq<Item<T>>, item: Item<T>, k: int)
    requires k < |items|
    ensures Path(items + [item], k) == Path(items, k)
    decreases k
  {
    if k >= 0 && items[k].ListItem? {
      ParentKept(items, item, k);
      PathKept(items, item, Parent(items, k));
    }
  }

  lemma LinkedMore<T>(items: seq<Item<T>>, parents: seq<int>, item: Item<T>)
    requires Linked(items, parents)
    ensures Linked(items + [item], parents + [Parent(items + [item], |items|)])
  {
    forall k | 0 <= k < |items| ensures Parent(items + [item], k) == Parent(items, k) {
      ParentKept(items, item, k);
    }
  }

  lemma Attached<T>(items: seq<Item<T>>, parents: seq<int>, item: Item<T>)
    requires Linked(items, parents) && item.ListItem?
    ensures var p := Nearest(items, item.indent, |items| - 1);
            && Linked(items + [item], parents + [p])
            && Path(items + [item], |items|) == Path(items, p) + [|items|]
  {
    var p := Nearest(items, item.indent, |items| - 1);
    NearestKept(items, item, item.indent, |items| - 1);
    LinkedMore(items, parents, item);
    PathKept(items, item, p);
  }

  /** The links and the stack are those of the items read so far. */
  ghost predicate InStep<T>(items: seq<Item<T>>, parents: seq<int>, stack: seq<int>) {
    Linked(items, parents) && stack == Path(items, |items| - 1)
  }

  lemma PushStep<T>(items: seq<Item<T>>, parents: seq<int>, stack: seq<int>, item: Item<T>)
    requires Linked(items, parents) && item.ListItem? && stack == Path(items, Nearest(items, item.indent, |items| - 1))
    ensures InStep(items + [item], parents + [if |stack| > 0 then stack[|stack| - 1] else -1], stack + [|items|])
  {
    Attached(items, parents, item);
  }

  /** Popping one frame goes from an item that is not shallower to its parent. */
  lemma PopStep<T>(items: seq<Item<T>>, indent: nat, top: int)
    requires 0 <= top < |items| && items[top].ListItem? && items[top].indent >= indent
    ensures Nearest(items, indent, top) == Nearest(items, indent, Parent(items, top))
    ensures Path(items, top)[..|Path(items, top)| - 1] == Path(items, Parent(items, top))
  {
    NearestJump(items, indent, items[top].indent, top - 1);
  }

  /** Builds the tree as the parser does: nodes are numbered in line order, a node's parent link is
      set when it is added, and the stack holds the path to the most recent list item. */
  class TreeBuilder<T> {
    var items: seq<Item<T>>
    var parents: seq<int>
    var stack: seq<int>

    ghost predicate Valid()
      reads this
    {
      InStep(items, parents, stack)
    }

    constructor ()
      ensures Valid() && items == []
    {
      items, parents, stack := [], [], [];
    }

    method AddRoot(b: T)
      requires Valid()
      modifies this
      ensures Valid() && items == old(items) + [Root(b)]
    {
      LinkedMore(items, parents, Root(b));
      items, parents, stack := items + [Root(b)], parents + [-1], [];
    }

    /** Drops the frames that are not shallower than `indent`; the one left on top is the parent. */
    method PopTo(indent: nat)
      requires Valid()
      modifies this`stack
      ensures stack == Path(items, Nearest(items, indent, |items| - 1))
    {
      ghost var top := |items| - 1;
      while |stack| > 0 && items[stack[|stack| - 1]].indent >= indent
        invariant -1 <= top < |items| && stack == Path(items, top)
        invariant Nearest(items, indent, |items| - 1) == Nearest(items, indent, top)
        decreases |stack|
      {
        PopStep(items, indent, top);
        stack := stack[..|stack| - 1];
        top := Parent(items, top);
      }
    }

    method AddListItem(indent: nat, b: T)
      requires Valid()
      modifies this
      ensures Valid() && items == old(items) + [ListItem(indent, b)]
    {
      PopTo(indent);
      PushStep(items, parents, stack, ListItem(indent, b));
      var parent := if |stack| > 0 then stack[|stack| - 1] else -1;
      items, parents, stack := items + [ListItem(indent, b)], parents + [parent], stack + [|items|];
    }
  }

  // ----- the forest -----

  /** `flattenNodes`: the nodes below `p`, in order, each with its own children. */
  function Collect<T>(items: seq<Item<T>>, parents: seq<int>, p: int, from: nat): seq<Node<T>>
    requires |parents| == |items| && from <= |items|
    decreases |items| - from
  {
    if from == |items| then []
    else if parents[from] == p then
      [Node(items[from].block, Collect(items, parents, from, from + 1))] + Collect(items, parents, p, from + 1)
    else Collect(items, parents, p, from + 1)
  }

  /** How many items after the first belong below it. */
  function Below<T>(item: Item<T>, rest: seq<Item<T>>): (n: nat)
    ensures n <= |rest|
    ensures item.Root? ==> n == 0
    ensures item.ListItem? ==> forall i :: 0 <= i < n ==> rest[i].ListItem? && rest[i].indent > item.indent
    ensures item.ListItem? && n < |rest| ==> rest[n].Root? || rest[n].indent <= item.indent
  {
    if rest == [] || item.Root? || rest[0].Root? || rest[0].indent <= item.indent then 0
    else 1 + Below(item, rest[1..])
  }

  /** The nesting, said recursively: an item takes the deeper items that follow it. */
  function Forest<T>(items: seq<Item<T>>): seq<Node<T>>
    decreases |items|
  {
    if items == [] then []
    else
      var rest := items[1..];
      var n := Below(items[0], rest);
      [Node(items[0].block, Forest(rest[..n]))] + Forest(rest[n..])
  }

  lemma {:induction false} SkipOthers<T>(items: seq<Item<T>>, parents: seq<int>, p: int, a: nat, b: nat)
    requires |parents| == |items| && a <= b <= |items|
    requires forall j :: a <= j < b ==> parents[j] != p
    ensures Collect(items, parents, p, a) == Collect(items, parents, p, b)
    decreases b - a
  {
    if a < b {
      SkipOthers(items, parents, p, a + 1, b);
    }
  }

  /** Scanning back from beyond `m` never stops inside `[a, m)` when `m` closes that stretch. */
  lemma {:induction false} NearestAvoids<T>(items: seq<Item<T>>, x: int, i: int, a: nat, m: nat)
    requires a <= m <= |items| && a - 1 <= i < |items|
    requires i < m ==> forall t :: a <= t < m ==> items[t].Root? || items[t].indent >= x
    requires i >= m ==> forall t :: a <= t < m ==>
               items[m].Root? || items[t].Root? || items[t].indent >= items[m].indent
    ensures !(a <= Nearest(items, x, i) < m)
    decreases i
  {
    if i >= a && items[i].ListItem? && items[i].indent >= x {
      NearestAvoids(items, x, i - 1, a, m);
    }
  }

  /** Scanning back over deeper list items stops at `a` at the latest. */
  lemma {:induction false} NearestStops<T>(items: seq<Item<T>>, x: int, i: int, a: nat)
    requires a <= i < |items| && items[a].ListItem? && items[a].indent < x
    requires forall t :: a < t <= i ==> items[t].ListItem?
    ensures Nearest(items, x, i) >= a
    decreases i
  {
    if a < i {
      NearestStops(items, x, i - 1, a);
    }
  }

  /** Where the items below `a` end within `[a, b)`. */
  function End<T>(items: seq<Item<T>>, a: nat, b: nat): (m: nat)
    requires a < b <= |items|
    ensures a < m <= b
  {
    a + 1 + Below(items[a], items[a + 1..b])
  }

  /** The items before that end are deeper than `a`, and the one at it is not. */
  lemma EndCloses<T>(items: seq<Item<T>>, a: nat, b: nat)
    requires a < b <= |items|
    ensures forall j :: a < j < End(items, a, b) ==>
              items[a].ListItem? && items[j].ListItem? && items[j].indent > items[a].indent
    ensures items[a].ListItem? && End(items, a, b) < b ==>
              items[End(items, a, b)].Root? || items[End(items, a, b)].indent <= items[a].indent
  {
    var rest := items[a + 1..b];
    var m := End(items, a, b);
    forall j | a < j < m
      ensures items[a].ListItem? && items[j].ListItem? && items[j].indent > items[a].indent
    {
      assert items[j] == rest[j - a - 1];
    }
    if m < b {
      assert items[m] == rest[m - a - 1];
    }
  }

  /** Exactly the items up to that end have their parent at or after `a`. */
  lemma ParentsAround<T>(items: seq<Item<T>>, a: nat, b: nat, j: int)
    requires a < b <= |items|
    requires b < |items| ==> items[b].Root? || (items[a].ListItem? && items[b].indent <= items[a].indent)
    ensures a < j < End(items, a, b) ==> Parent(items, j) >= a
    ensures End(items, a, b) <= j < |items| ==> !(a <= Parent(items, j) < End(items, a, b))
  {
    var m := End(items, a, b);
    EndCloses(items, a, b);
    if a < j < m {
      NearestStops(items, items[j].indent, j - 1, a);
    } else if m <= j < |items| && items[j].ListItem? {
      NearestAvoids(items, items[j].indent, j - 1, a, m);
    }
  }

  /** `[a, b)` holds the items below `p` from `a` on, and nothing after it is below `p`. */
  ghost predicate Stretch<T>(items: seq<Item<T>>, parents: seq<int>, p: int, a: nat, b: nat) {
    && Linked(items, parents) && p < a <= b <= |items|
    && (forall j :: a <= j < b ==> parents[j] == p || parents[j] >= a)
    && (forall j :: b <= j < |items| ==> parents[j] != p)
    && (forall j :: a <= j < b < |items| ==>
          items[b].Root? || (items[j].ListItem? && items[b].indent <= items[j].indent))
  }

  /** A stretch is its first item, the stretch below it, and the rest. */
  lemma Divide<T>(items: seq<Item<T>>, parents: seq<int>, p: int, a: nat, b: nat)
    requires Stretch(items, parents, p, a, b) && a < b
    ensures parents[a] == p && forall j :: a < j < End(items, a, b) ==> parents[j] != p
    ensures Stretch(items, parents, a, a + 1, End(items, a, b))
    ensures Stretch(items, parents, p, End(items, a, b), b)
  {
    EndCloses(items, a, b);
    var m := End(items, a, b);
    forall j ensures a < j < m ==> parents[j] >= a
             ensures m <= j < |items| ==> !(a <= parents[j] < m)
    {
      ParentsAround(items, a, b, j);
    }
    assert parents[a] < a;
  }

  lemma Slices<T>(items: seq<T>, a: nat, m: nat, b: nat)
    requires a < m <= b <= |items|
    ensures items[a..b][0] == items[a] && items[a..b][1..] == items[a + 1..b]
    ensures items[a + 1..b][..m - a - 1] == items[a + 1..m] && items[a + 1..b][m - a - 1..] == items[m..b]
  {
  }

  lemma ForestUnfold<T>(item: Item<T>, rest: seq<Item<T>>)
    ensures var n := Below(item, rest); Forest([item] + rest) == [Node(item.block, Forest(rest[..n]))] + Forest(rest[n..])
  {
    assert ([item] + rest)[1..] == rest;
  }

  lemma ForestFirst<T>(items: seq<Item<T>>, a: nat, b: nat)
    requires a < b <= |items|
    ensures var m := End(items, a, b);
            Forest(items[a..b]) == [Node(items[a].block, Forest(items[a + 1..m]))] + Forest(items[m..b])
  {
    Slices(items, a, End(items, a, b), b);
    assert items[a..b] == [items[a]] + items[a + 1..b];
    ForestUnfold(items[a], items[a + 1..b]);
  }

  lemma CollectFirst<T>(items: seq<Item<T>>, parents: seq<int>, p: int, a: nat, m: nat)
    requires |parents| == |items| && a < m <= |items|
    requires parents[a] == p && forall j :: a < j < m ==> parents[j] != p
    ensures Collect(items, parents, p, a)
         == [Node(items[a].block, Collect(items, parents, a, a + 1))] + Collect(items, parents, p, m)
  {
    SkipOthers(items, parents, p, a + 1, m);
  }

  /** The linked nodes below `p`, read off in order, are the recursive forest of the items there. */
  lemma {:induction false} CollectForest<T>(items: seq<Item<T>>, parents: seq<int>, p: int, a: nat, b: nat)
    requires Stretch(items, parents, p, a, b)
    ensures Collect(items, parents, p, a) == Forest(items[a..b])
    decreases b - a
  {
    if a == b {
      SkipOthers(items, parents, p, a, |items|);
    } else {
      var m := End(items, a, b);
      Divide(items, parents, p, a, b);
      ForestFirst(items, a, b);
      CollectFirst(items, parents, p, a, m);
      CollectForest(items, parents, a, a + 1, m);
      CollectForest(items, parents, p, m, b);
    }
  }

  /** Nesting refines its specification: for any sequence of items, linking each to its nearest
      smaller predecessor and flattening gives the recursive forest. */
  lemma NestingIsForest<T>(items: seq<Item<T>>, parents: seq<int>)
    requires Linked(items, parents)
    ensures Collect(items, parents, -1, 0) == Forest(items)
  {
    assert items[0..|items|] == items;
    CollectForest(items, parents, -1, 0, |items|);
  }

  function Preorder<T>(nodes: seq<Node<T>>): seq<T> {
    if nodes == [] then []
    else [nodes[0].block] + Preorder(nodes[0].children) + Preorder(nodes[1..])
  }

  function BlocksOf<T>(items: seq<Item<T>>): seq<T> {
    seq(|items|, i requires 0 <= i < |items| => items[i].block)
  }

  lemma PreorderCons<T>(node: Node<T>, nodes: seq<Node<T>>)
    ensures Preorder([node] + nodes) == [node.block] + Preorder(node.children) + Preorder(nodes)
  {
    assert ([node] + nodes)[1..] == nodes;
  }

  lemma BlocksInThree<T>(items: seq<Item<T>>, n: nat)
    requires items != [] && n < |items|
    ensures BlocksOf(items) == [items[0].block] + BlocksOf(items[1..][..n]) + BlocksOf(items[1..][n..])
  {
  }

  /** Flattening keeps the line order: it is the preorder of the forest. */
  lemma {:induction false} PreorderIsLineOrder<T>(items: seq<Item<T>>)
    ensures Preorder(Forest(items)) == BlocksOf(items)
    decreases |items|
  {
    if items != [] {
      var rest := items[1..];
      var n := Below(items[0], rest);
      PreorderIsLineOrder(rest[..n]);
      PreorderIsLineOrder(rest[n..]);
      PreorderCons(Node(items[0].block, Forest(rest[..n])), Forest(rest[n..]));
      BlocksInThree(items, n);
    }
  }
}
