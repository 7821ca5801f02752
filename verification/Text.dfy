/** The string operations the Markdown codec is built from: trimming, searching,
    splitting and joining, with the laws that connect them. */
module Text {

  datatype Option<T> = None | Some(value: T)

  /** White space as Go's `unicode.IsSpace` defines it (what `strings.TrimSpace` drops). */
  predicate IsSpace(c: char) {
    || c in {' ', '\t', '\n', '\r', '\U{000B}', '\U{000C}', '\U{0085}', '\U{00A0}'}
    || c == '\U{1680}' || '\U{2000}' <= c <= '\U{200A}'
    || c in {'\U{2028}', '\U{2029}', '\U{202F}', '\U{205F}', '\U{3000}'}
  }

  /** White space as the `\s` class of a Go regular expression defines it. */
  predicate IsReSpace(c: char) {
    c in {' ', '\t', '\n', '\r', '\U{000C}'}
  }

  // ----- sequences -----

  lemma Assoc<T>(a: seq<T>, b: seq<T>, c: seq<T>)
    ensures a + (b + c) == a + b + c
  {
  }

  lemma Regroup<T>(a: seq<T>, b: seq<T>, c: seq<T>, d: seq<T>)
    ensures a + (b + c + d) == a + b + c + d
  {
  }

  // ----- characters and white space -----

  /** Lower case, as far as a comparison with the lower-case ASCII keywords can tell: besides A-Z,
      the dotted capital I and the Kelvin sign are the only letters whose lower case is ASCII. */
  function LowerChar(c: char): char {
    if 'A' <= c <= 'Z' then c - 'A' + 'a'
    else if c == '\U{0130}' then 'i'
    else if c == '\U{212A}' then 'k'
    else c
  }

  function Lower(s: string): string {
    seq(|s|, k requires 0 <= k < |s| => LowerChar(s[k]))
  }

  function TrimLeft(s: string): string {
    if s != "" && IsSpace(s[0]) then TrimLeft(s[1..]) else s
  }

  function TrimRight(s: string): string {
    if s != "" && IsSpace(s[|s| - 1]) then TrimRight(s[..|s| - 1]) else s
  }

  function TrimSpace(s: string): string {
    TrimRight(TrimLeft(s))
  }

  /** `s` is what `TrimSpace` would leave of it. */
  predicate Trimmed(s: string) {
    s == "" || (!IsSpace(s[0]) && !IsSpace(s[|s| - 1]))
  }

  predicate Blank(s: string) {
    forall k :: 0 <= k < |s| ==> IsSpace(s[k])
  }

  /** Trimming a padded text gives the text back. */
  lemma {:induction false} TrimPadded(left: string, t: string, right: string)
    requires Blank(left) && Blank(right) && Trimmed(t)
    ensures TrimSpace(left + t + right) == t
    decreases |left| + |right|
  {
    if left != "" {
      assert (left + t + right)[1..] == left[1..] + t + right;
      TrimPadded(left[1..], t, right);
    } else if right != "" && t == "" {
      assert (left + t + right)[1..] == left + t + right[1..];
      TrimPadded(left, t, right[1..]);
    } else if right != "" {
      assert (left + t + right)[..|t| + |right| - 1] == left + t + right[..|right| - 1];
      assert (left + t + right)[|t| + |right| - 1] == right[|right| - 1];
      assert TrimLeft(left + t + right) == left + t + right;
      assert TrimLeft(left + t + right[..|right| - 1]) == left + t + right[..|right| - 1];
      TrimPadded(left, t, right[..|right| - 1]);
    } else {
      assert left + t + right == t;
    }
  }

  predicate OccursAt(s: string, j: int, pat: string) {
    0 <= j <= |s| - |pat| && s[j..j + |pat|] == pat
  }

  lemma OccursLater(s: string, j: int, pat: string)
    requires s != "" && OccursAt(s, j, pat) && !(pat <= s)
    ensures 1 <= j && OccursAt(s[1..], j - 1, pat)
  {
    assert j == 0 ==> pat <= s;
    assert j >= 1 ==> s[1..][j - 1..j - 1 + |pat|] == s[j..j + |pat|];
  }

  lemma OccursEarlier(s: string, k: int, pat: string)
    requires s != "" && OccursAt(s[1..], k, pat)
    ensures OccursAt(s, k + 1, pat)
  {
    assert s[1..][k..k + |pat|] == s[k + 1..k + 1 + |pat|];
  }

  /** Where `pat` first occurs in `s`, or -1 (`strings.Index`). */
  function Index(s: string, pat: string): (k: int)
    requires pat != ""
    ensures k == -1 || OccursAt(s, k, pat)
    ensures forall j :: 0 <= j && (k == -1 || j < k) ==> !OccursAt(s, j, pat)
  {
    if s == "" then -1
    else if pat <= s then 0
    else
      var k := Index(s[1..], pat);
      assert forall j :: OccursAt(s, j, pat) ==> 1 <= j && OccursAt(s[1..], j - 1, pat) by {
        forall j | OccursAt(s, j, pat) ensures 1 <= j && OccursAt(s[1..], j - 1, pat) {
          OccursLater(s, j, pat);
        }
      }
      assert k >= 0 ==> OccursAt(s, k + 1, pat) by {
        if k >= 0 {
          OccursEarlier(s, k, pat);
        }
      }
      if k == -1 then -1 else k + 1
  }

  /** A closing mark whose first character does not occur in `inner` is found right after it. */
  lemma IndexAfter(inner: string, pat: string, rest: string)
    requires pat != "" && pat[0] !in inner
    ensures Index(inner + pat + rest, pat) == |inner|
  {
    var s := inner + pat + rest;
    assert OccursAt(s, |inner|, pat);
    assert forall k :: OccursAt(s, k, pat) ==> s[k..k + |pat|][0] == s[k];
    assert forall k :: 0 <= k < |inner| ==> s[k] == inner[k];
  }

  function Split(s: string, sep: char): (parts: seq<string>)
    ensures parts != []
  {
    if s == "" then [""]
    else if s[0] == sep then [""] + Split(s[1..], sep)
    else
      var tail := Split(s[1..], sep);
      [[s[0]] + tail[0]] + tail[1..]
  }

  function Join(parts: seq<string>, sep: string): string {
    if parts == [] then ""
    else if |parts| == 1 then parts[0]
    else parts[0] + sep + Join(parts[1..], sep)
  }

  ghost predicate AllFree(parts: seq<string>, c: char) {
    forall k :: 0 <= k < |parts| ==> c !in parts[k]
  }

  lemma {:induction false} SplitHead(p: string, sep: char, s: string)
    requires sep !in p
    ensures Split(p, sep) == [p]
    ensures Split(p + [sep] + s, sep) == [p] + Split(s, sep)
  {
    if p == "" {
      assert (p + [sep] + s)[1..] == s;
    } else {
      assert (p + [sep] + s)[1..] == p[1..] + [sep] + s;
      assert p == [p[0]] + p[1..];
      SplitHead(p[1..], sep, s);
    }
  }

  /** Splitting undoes joining when no part holds the separator. */
  lemma {:induction false} SplitJoin(parts: seq<string>, sep: char)
    requires parts != [] && AllFree(parts, sep)
    ensures Split(Join(parts, [sep]), sep) == parts
  {
    if |parts| == 1 {
      SplitHead(parts[0], sep, "");
    } else {
      SplitHead(parts[0], sep, Join(parts[1..], [sep]));
      SplitJoin(parts[1..], sep);
    }
  }

  /** Joining undoes splitting. */
  lemma {:induction false} JoinSplit(s: string, sep: char)
    ensures Join(Split(s, sep), [sep]) == s
    ensures AllFree(Split(s, sep), sep)
  {
    if s != "" {
      JoinSplit(s[1..], sep);
      var tail := Split(s[1..], sep);
      if s[0] == sep {
        assert ([""] + tail)[1..] == tail;
      } else {
        assert ([[s[0]] + tail[0]] + tail[1..])[1..] == tail[1..];
        assert s == [s[0]] + s[1..];
      }
    }
  }

  lemma {:induction false} JoinCons(p: string, rest: seq<string>, sep: string)
    requires rest != []
    ensures Join([p] + rest, sep) == p + sep + Join(rest, sep)
  {
    assert ([p] + rest)[1..] == rest;
  }

  lemma {:induction false} JoinAppend(a: seq<string>, b: seq<string>, sep: string)
    requires a != [] && b != []
    ensures Join(a + b, sep) == Join(a, sep) + sep + Join(b, sep)
  {
    if |a| == 1 {
      assert a + b == [a[0]] + b;
      JoinCons(a[0], b, sep);
    } else {
      assert a + b == [a[0]] + (a[1..] + b);
      JoinCons(a[0], a[1..] + b, sep);
      JoinAppend(a[1..], b, sep);
      assert a == [a[0]] + a[1..];
    }
  }

  /** `strings.ReplaceAll(s, "\r\n", "\n")`. */
  function DropCarriageReturns(s: string): string {
    if |s| < 2 then s
    else if s[0] == '\r' && s[1] == '\n' then ['\n'] + DropCarriageReturns(s[2..])
    else [s[0]] + DropCarriageReturns(s[1..])
  }

  predicate EndsInCR(s: string) {
    s != "" && s[|s| - 1] == '\r'
  }

  function Chomp(s: string): string {
    if EndsInCR(s) then s[..|s| - 1] else s
  }

  /** Every line but the last loses one carriage return at its end. */
  function Chomped(lines: seq<string>): (r: seq<string>)
    ensures |r| == |lines|
  {
    if |lines| < 2 then lines else [Chomp(lines[0])] + Chomped(lines[1..])
  }

  lemma DropStep(t: string)
    requires t != "" && (|t| >= 2 && t[0] == '\r' ==> t[1] != '\n')
    ensures DropCarriageReturns(t) == [t[0]] + DropCarriageReturns(t[1..])
  {
  }

  lemma {:induction false} ChompLine(p: string, s: string)
    requires '\n' !in p
    ensures DropCarriageReturns(p + "\n" + s) == Chomp(p) + "\n" + DropCarriageReturns(s)
  {
    var t := p + "\n" + s;
    if p == "" {
      DropStep(t);
      assert t[1..] == s;
    } else if p == "\r" {
      assert t[2..] == s;
    } else {
      DropStep(t);
      assert t[1..] == p[1..] + "\n" + s;
      ChompLine(p[1..], s);
      assert [p[0]] + Chomp(p[1..]) == Chomp(p);
    }
  }

  lemma {:induction false} NoNewlineNoChange(p: string)
    requires '\n' !in p
    ensures DropCarriageReturns(p) == p
  {
    if |p| >= 2 {
      NoNewlineNoChange(p[1..]);
    }
  }

  /** The replacement, seen line by line. */
  lemma {:induction false} ChompJoin(lines: seq<string>)
    requires lines != [] && AllFree(lines, '\n')
    ensures DropCarriageReturns(Join(lines, "\n")) == Join(Chomped(lines), "\n")
    ensures AllFree(Chomped(lines), '\n')
  {
    if |lines| == 1 {
      NoNewlineNoChange(lines[0]);
    } else {
      ChompLine(lines[0], Join(lines[1..], "\n"));
      ChompJoin(lines[1..]);
      JoinCons(Chomp(lines[0]), Chomped(lines[1..]), "\n");
    }
  }

  lemma {:induction false} ChompedAt(lines: seq<string>, k: nat)
    requires k < |lines|
    ensures Chomped(lines)[k] == if k == |lines| - 1 then lines[k] else Chomp(lines[k])
  {
    if |lines| >= 2 && k > 0 {
      ChompedAt(lines[1..], k - 1);
    }
  }
}
