/** Compilation of a search query to an FTS5 expression (internal/search/fts5.go). */
module SearchQuery {
  import opened Text

  // ----- the query -----

  datatype Item =
    | Filter(key: string, value: Option<string>)
    | Term(negated: bool, text: string)

  type Branch = seq<Item>

  datatype Column = Title | Body
  datatype Scope = Anywhere | Only(col: Column)

  function ScopeNamed(name: string): Option<Scope> {
    if Lower(name) == "title" then Some(Only(Title))
    else if Lower(name) == "body" then Some(Only(Body))
    else None
  }

  predicate IsHoistable(item: Item) {
    item.Filter? && Lower(item.key) in {"project", "tag"}
  }

  predicate IsIn(item: Item) {
    item.Filter? && Lower(item.key) == "in"
  }

  /** The scope an item sets, if it sets one. */
  function SetsScope(item: Item): Option<Scope> {
    if IsIn(item) && item.value.Some? then ScopeNamed(item.value.value) else None
  }

  // ----- terms -----

  const DROPPED: set<char> := {'.', '?', '+', '\\', '[', ']', '^', '$', '|', '{', '}', '*'}

  function Keep(s: string, drop: set<char>): (r: string)
    ensures forall k :: 0 <= k < |r| ==> r[k] !in drop
  {
    if s == "" then "" else (if s[0] in drop then "" else [s[0]]) + Keep(s[1..], drop)
  }

  lemma {:induction false} KeepAppend(a: string, b: string, drop: set<char>)
    ensures Keep(a + b, drop) == Keep(a, drop) + Keep(b, drop)
  {
    if a == "" {
      assert a + b == b;
    } else {
      assert (a + b)[1..] == a[1..] + b;
      KeepAppend(a[1..], b, drop);
    }
  }

  predicate EndsInStar(s: string) {
    s != "" && s[|s| - 1] == '*'
  }

  /** Drops characters FTS5 would choke on; one `*` at the end survives as a prefix match. */
  function Sanitize(term: string): string {
    var kept := Keep(if EndsInStar(term) then term[..|term| - 1] else term, DROPPED);
    if kept == "" then "" else if EndsInStar(term) then kept + "*" else kept
  }

  function DoubleQuotes(s: string): string {
    if s == "" then "" else (if s[0] == '"' then "\"\"" else [s[0]]) + DoubleQuotes(s[1..])
  }

  function QuoteIfNeeded(term: string): string {
    if exists c :: c in term && c in {' ', '(', ')', '"'} then "\"" + DoubleQuotes(term) + "\"" else term
  }

  /** The value of a column clause. */
  function ColumnValue(v: string): string {
    if !("\"" <= v) && ('#' in v || '@' in v) then "\"" + v + "\"" else v
  }

  // ----- clauses -----

  datatype Tok = Atom(col: Column, value: string) | And | Or | Not | Gap | Open | Close

  datatype Clause = One(col: Column, value: string) | Either(value: string)

  /** One conjunct of a branch. */
  datatype Part = Part(negated: bool, clause: Clause)

  function ClauseToks(c: Clause): seq<Tok> {
    match c
    case One(col, v) => [Atom(col, ColumnValue(v))]
    case Either(v) => [Open, Atom(Title, ColumnValue(v)), Or, Atom(Body, ColumnValue(v)), Close]
  }

  function PartToks(p: Part): seq<Tok> {
    (if p.negated then [Not] else []) + ClauseToks(p.clause)
  }

  function Scoped(scope: Scope, v: string): Clause {
    match scope
    case Anywhere => Either(v)
    case Only(col) => One(col, v)
  }

  function IfAny(v: string, part: Part): seq<Part> {
    if v == "" then [] else [part]
  }

  /** What one item contributes under a scope. */
  function ItemParts(item: Item, scope: Scope): seq<Part> {
    match item
    case Filter(key, value) =>
      if value.None? || value.value == "" then []
      else
        var k, v := Lower(key), value.value;
        if k in {"project", "tag", "in"} then []
        else if k == "title" || k == "body" then
          var q := QuoteIfNeeded(Sanitize(v));
          IfAny(Sanitize(v), Part(false, One(if k == "title" then Title else Body, q)))
        else
          var t := Sanitize(key + ":" + v);
          IfAny(t, Part(false, Scoped(scope, QuoteIfNeeded(t))))
    case Term(negated, text) =>
      var t := Sanitize(Keep(text, {'\''}));
      IfAny(t, Part(negated, Scoped(scope, QuoteIfNeeded(t))))
  }

  function NextScope(item: Item, scope: Scope): Scope {
    if SetsScope(item).Some? then SetsScope(item).value else scope
  }

  function Parts(items: Branch, scope: Scope): seq<Part> {
    if items == [] then [] else ItemParts(items[0], scope) + Parts(items[1..], NextScope(items[0], scope))
  }

  function ScopeAfter(items: Branch, scope: Scope): Scope {
    if items == [] then scope else ScopeAfter(items[1..], NextScope(items[0], scope))
  }

  // ----- hoisting -----

  /** How many project, tag and scope filters open a branch. */
  function Leading(items: Branch): (n: nat)
    ensures n <= |items| && forall k :: 0 <= k < n ==> IsHoistable(items[k]) || IsIn(items[k])
    ensures n < |items| ==> !(IsHoistable(items[n]) || IsIn(items[n]))
  {
    if items == [] || !(IsHoistable(items[0]) || IsIn(items[0])) then 0 else 1 + Leading(items[1..])
  }

  function Hoistable(items: Branch): (r: Branch)
    ensures |r| <= |items| && forall k :: 0 <= k < |r| ==> IsHoistable(r[k])
  {
    if items == [] then [] else (if IsHoistable(items[0]) then [items[0]] else []) + Hoistable(items[1..])
  }

  datatype Hoist = Hoist(common: Branch, scope: Scope)

  /** Only a query with several branches hoists, and the filters only if a term follows them. */
  function HoistOf(branches: seq<Branch>, scope: Scope): Hoist {
    if |branches| <= 1 then Hoist([], scope)
    else
      var first := branches[0];
      var n := Leading(first);
      Hoist(if n < |first| && first[n].Term? then Hoistable(first[..n]) else [], ScopeAfter(first[..n], scope))
  }

  /** Where the first branch is resumed: behind the first `in:` filter when the scope was hoisted,
      else after as many items as were hoisted. */
  function StartIndex(items: Branch, h: Hoist, scope: Scope): (s: nat)
    requires |h.common| <= |items|
    ensures s <= |items|
  {
    var j := FirstIn(items);
    if h.scope != scope && j < |items| then j + 1 else |h.common|
  }

  function FirstIn(items: Branch): (j: nat)
    ensures j <= |items|
    ensures forall k :: 0 <= k < j ==> !IsIn(items[k])
    ensures j < |items| ==> IsIn(items[j])
  {
    if items == [] || IsIn(items[0]) then 0 else 1 + FirstIn(items[1..])
  }

  function BranchItems(branches: seq<Branch>, i: nat, scope: Scope): Branch
    requires i < |branches|
  {
    var h := HoistOf(branches, scope);
    h.common + branches[i][if i == 0 then StartIndex(branches[0], h, scope) else 0..]
  }

  // ----- joining -----

  function ColumnName(col: Column): string {
    match col
    case Title => "title"
    case Body => "body"
  }

  function SpellTok(t: Tok): string {
    match t
    case Atom(col, v) => ColumnName(col) + ":" + v
    case And => " AND "
    case Or => " OR "
    case Not => "NOT "
    case Gap => " "
    case Open => "("
    case Close => ")"
  }

  /** The characters handed to FTS5. */
  function Spell(ts: seq<Tok>): string {
    if ts == [] then "" else SpellTok(ts[0]) + Spell(ts[1..])
  }

  predicate StartsWithNot(ts: seq<Tok>) {
    "NOT " <= Spell(ts)
  }

  predicate NeedsParens(ts: seq<Tok>) {
    Index(Spell(ts), " AND ") >= 0
  }

  function JoinTail(parts: seq<Part>): seq<Tok> {
    if parts == [] then []
    else
      var toks := PartToks(parts[0]);
      (if StartsWithNot(toks) then [Gap] else [And]) + toks + JoinTail(parts[1..])
  }

  function JoinParts(parts: seq<Part>): seq<Tok>
    requires parts != []
  {
    PartToks(parts[0]) + JoinTail(parts[1..])
  }

  function Unit(ts: seq<Tok>): seq<Tok> {
    if NeedsParens(ts) then [Open] + ts + [Close] else ts
  }

  function OrTail(units: seq<seq<Tok>>): seq<Tok> {
    if units == [] then [] else [Or] + Unit(units[0]) + OrTail(units[1..])
  }

  /** A branch without parts is left out. */
  function Conjunction(parts: seq<Part>): seq<seq<Part>> {
    if parts == [] then [] else [parts]
  }

  /** The parts of one branch, converted with the hoisted filters and scope. */
  function HoistedParts(branches: seq<Branch>, i: nat, scope: Scope): seq<Part>
    requires i < |branches|
  {
    Parts(BranchItems(branches, i, scope), HoistOf(branches, scope).scope)
  }

  predicate NoneEmpty(live: seq<seq<Part>>) {
    forall k :: 0 <= k < |live| ==> live[k] != []
  }

  function NonEmptyOnes(xs: seq<seq<Part>>): (r: seq<seq<Part>>)
    ensures NoneEmpty(r)
  {
    if xs == [] then [] else Conjunction(xs[0]) + NonEmptyOnes(xs[1..])
  }

  function AllHoisted(branches: seq<Branch>, scope: Scope): seq<seq<Part>> {
    seq(|branches|, i requires 0 <= i < |branches| => HoistedParts(branches, i, scope))
  }

  /** The non-empty branches, as conjunctions. */
  function Live(branches: seq<Branch>, scope: Scope): seq<seq<Part>> {
    NonEmptyOnes(AllHoisted(branches, scope))
  }

  datatype Compiled = Wildcard | Expr(toks: seq<Tok>)

  function Units(live: seq<seq<Part>>): seq<seq<Tok>>
    requires NoneEmpty(live)
  {
    seq(|live|, k requires 0 <= k < |live| => JoinParts(live[k]))
  }

  function Assemble(live: seq<seq<Part>>): Compiled
    requires NoneEmpty(live)
  {
    if live == [] then Wildcard
    else if |live| == 1 then Expr(JoinParts(live[0]))
    else
      Expr(Unit(Units(live)[0]) + OrTail(Units(live)[1..]))
  }

  function ToFts5(branches: seq<Branch>, scope: Scope): Compiled {
    Assemble(Live(branches, scope))
  }
}
