/** The document value (internal/document/file.go): what a file holds once parsed, and the
    normal form every read and write puts it in. */
module Documents {
  import opened Text

  type Path = string

  /** Legacy files carry no kind. */
  datatype Kind = Legacy | PlainDocument | Canvas

  /** The blocks or the scene, reduced to what indexing draws from them. */
  datatype Payload = Payload(body: string, links: set<string>, assets: set<string>)

  datatype Doc = Doc(
    project: string, title: string, tags: seq<string>, aliases: seq<string>,
    created: int, updated: int, kind: Kind, payload: Payload)

  function KindOf(k: Kind): Kind {
    if k == Legacy then PlainDocument else k
  }

  function NormalTag(tag: string): string {
    Lower(TrimSpace(tag))
  }

  /** Tags in lower case, trimmed, without blanks and repeats; the first occurrence counts. */
  function NormalTags(tags: seq<string>, seen: set<string>): (r: seq<string>)
    ensures forall k :: 0 <= k < |r| ==> r[k] != "" && r[k] !in seen
    ensures forall j, k :: 0 <= j < k < |r| ==> r[j] != r[k]
  {
    if tags == [] then []
    else
      var t := NormalTag(tags[0]);
      if t == "" || t in seen then NormalTags(tags[1..], seen) else [t] + NormalTags(tags[1..], seen + {t})
  }

  function Normalize(d: Doc): Doc {
    d.(tags := NormalTags(d.tags, {}), kind := KindOf(d.kind))
  }

  method NormalizeTags(tags: seq<string>) returns (normalized: seq<string>)
    ensures normalized == NormalTags(tags, {})
  {
    var seen: set<string> := {};
    normalized := [];
    for i := 0 to |tags|
      invariant normalized + NormalTags(tags[i..], seen) == NormalTags(tags, {})
    {
      assert tags[i..][1..] == tags[i + 1..];
      var lower := NormalTag(tags[i]);
      if lower != "" && lower !in seen {
        seen := seen + {lower};
        normalized := normalized + [lower];
      }
    }
  }

  // ----- the normal form is stable -----

  lemma LowerChars(c: char)
    ensures LowerChar(LowerChar(c)) == LowerChar(c)
    ensures IsSpace(LowerChar(c)) <==> IsSpace(c)
  {
  }

  lemma LowerTwice(s: string)
    ensures Lower(Lower(s)) == Lower(s)
  {
    forall k | 0 <= k < |s| ensures LowerChar(LowerChar(s[k])) == LowerChar(s[k]) {
      LowerChars(s[k]);
    }
  }

  lemma {:induction false} TrimLeftDone(s: string)
    ensures TrimLeft(s) == "" || !IsSpace(TrimLeft(s)[0])
  {
    if s != "" && IsSpace(s[0]) {
      TrimLeftDone(s[1..]);
    }
  }

  lemma {:induction false} TrimRightDone(s: string)
    ensures var r := TrimRight(s); r == "" || (!IsSpace(r[|r| - 1]) && r[0] == s[0])
  {
    if s != "" && IsSpace(s[|s| - 1]) {
      TrimRightDone(s[..|s| - 1]);
    }
  }

  lemma NormalTagTwice(tag: string)
    ensures NormalTag(NormalTag(tag)) == NormalTag(tag)
  {
    var t := TrimSpace(tag);
    TrimLeftDone(tag);
    TrimRightDone(TrimLeft(tag));
    assert Trimmed(t);
    var l := Lower(t);
    if l != "" {
      LowerChars(t[0]);
      LowerChars(t[|t| - 1]);
    }
    assert Trimmed(l);
    TrimPadded("", l, "");
    assert "" + l + "" == l;
    LowerTwice(t);
  }

  /** Normal tags are already normal. */
  lemma {:induction false} NormalTagsStable(tags: seq<string>, seen: set<string>)
    requires forall k :: 0 <= k < |tags| ==> NormalTag(tags[k]) == tags[k] && tags[k] != "" && tags[k] !in seen
    requires forall j, k :: 0 <= j < k < |tags| ==> tags[j] != tags[k]
    ensures NormalTags(tags, seen) == tags
    decreases tags
  {
    if tags != [] {
      NormalTagsStable(tags[1..], seen + {tags[0]});
    }
  }

  lemma {:induction false} NormalTagsNormal(tags: seq<string>, seen: set<string>)
    ensures forall k :: 0 <= k < |NormalTags(tags, seen)| ==> NormalTag(NormalTags(tags, seen)[k]) == NormalTags(tags, seen)[k]
    decreases tags
  {
    if tags != [] {
      var t := NormalTag(tags[0]);
      NormalTagTwice(tags[0]);
      NormalTagsNormal(tags[1..], seen);
      NormalTagsNormal(tags[1..], seen + {t});
    }
  }

  /** Normalising is idempotent: what a write stores is what every later read returns, so the hash
      noted at the write is the hash the watcher computes. */
  lemma NormalizeTwice(d: Doc)
    ensures Normalize(Normalize(d)) == Normalize(d)
  {
    NormalTagsNormal(d.tags, {});
    NormalTagsStable(NormalTags(d.tags, {}), {});
  }
}
