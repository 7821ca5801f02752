/** No update is lost (internal/document/service.go): an accepted update replaces the version it
    names, no version is replaced twice, and a document keeps its identity while it exists. */
module NoLostUpdate {
  import opened Text
  import opened Documents
  import opened Index
  import opened DocumentService
  import opened Lifecycle

  /** What no save or move may change. */
  datatype Identity = Identity(kind: Kind, created: int, aliases: seq<string>)

  function IdentityOf(d: Doc): Identity {
    Identity(KindOf(d.kind), d.created, d.aliases)
  }

  predicate AcceptedUpdate(v: Vault, s: Step, p: Path) {
    s.action.Save? && p != "" && s.action.req.path == p
    && SaveVerdict(v, s.known, s.action.req, s.action.id, s.now, s.action.writes).Saved?
  }

  predicate Names(s: Step, version: Doc) {
    s.action.Save? && s.action.req.expected == Some(version)
  }

  /** A fresh id: the path of a new document is not taken. */
  predicate FreshId(v: Vault, s: Step) {
    s.action.Save? && Acceptable(s.action.req) && s.action.req.path == "" ==>
      TargetPath(s.action.req, s.action.id) !in v.files
  }

  predicate Local(s: Step) {
    !s.action.Pull?
  }

  function NewName(alias: string, id: string): string
    requires alias != ""
  {
    "doc-" + alias[1..] + "-" + id + ".json"
  }

  lemma NewPathParts(alias: string, id: string)
    requires ValidAlias(alias)
    ensures Split(NewPath(alias, id), '/') == ["projects"] + ([alias] + Split(NewName(alias, id), '/'))
  {
    var rest := alias + ['/'] + NewName(alias, id);
    assert NewPath(alias, id) == "projects" + ['/'] + rest;
    assert '/' !in alias;
    SplitHead("projects", '/', rest);
    SplitHead(alias, '/', NewName(alias, id));
  }

  lemma NewPathEnds(alias: string, id: string)
    requires alias != ""
    ensures "projects/" + alias + "/" <= NewPath(alias, id) && IsScanned(NewPath(alias, id))
  {
    var p := NewPath(alias, id);
    assert p == "projects/" + alias + "/" + NewName(alias, id);
    assert p[|p| - 5..] == ".json";
  }

  /** The path of a new document lies in its project's folder and is that of a document. */
  lemma NewPathIsDocument(alias: string, id: string)
    requires ValidAlias(alias)
    ensures var p := NewPath(alias, id); "projects/" + alias + "/" <= p && IsDocument(p)
  {
    NewPathEnds(alias, id);
    NewPathParts(alias, id);
    FirstPart(NewName(alias, id));
  }

  lemma {:induction false} FirstPart(s: string)
    requires s != "" && s[0] != '/'
    ensures Split(s, '/')[0] != "" && Split(s, '/')[0][0] == s[0]
  {
  }

  /** A save with an empty path that is accepted creates exactly one document, in the folder of its
      project, with exactly the content of the request. */
  lemma CreateHoldsRequest(v: Vault, s: Step, p: Path)
    requires s.action.Save? && s.action.req.path == ""
    requires SaveVerdict(v, s.known, s.action.req, s.action.id, s.now, s.action.writes) == Saved(p)
    ensures Readable(Do(v, s).files, p) && Do(v, s).files - {p} == v.files - {p}
    ensures var d, req := Read(Do(v, s).files, p), s.action.req;
            && d.title == TrimSpace(req.title) && d.payload == req.payload && d.project == Lower(TrimSpace(req.project))
            && d.tags == NormalTags(req.tags, {}) && d.kind == (if req.kind == Legacy then PlainDocument else req.kind)
            && d.created == s.now && d.updated == s.now && d.aliases == []
    ensures "projects/" + TrimSpace(s.action.req.project) + "/" <= p && IsDocument(p)
  {
    WrittenHolds(v.files, s.action.req, s.now);
    NewPathIsDocument(TrimSpace(s.action.req.project), s.action.id);
  }

  /** An accepted update finds the version it names, puts the request's content in its place, and
      touches no other file. */
  lemma UpdateReplacesNamedVersion(v: Vault, s: Step, p: Path)
    requires AcceptedUpdate(v, s, p)
    ensures Readable(v.files, p) && (forall d :: Names(s, d) ==> Read(v.files, p) == d)
    ensures Readable(Do(v, s).files, p) && IdentityOf(Read(Do(v, s).files, p)) == IdentityOf(v.files[p].doc)
    ensures Read(Do(v, s).files, p).title == TrimSpace(s.action.req.title)
         && Read(Do(v, s).files, p).payload == s.action.req.payload
         && Read(Do(v, s).files, p).tags == NormalTags(s.action.req.tags, {})
         && Read(Do(v, s).files, p).updated == s.now
         && Read(Do(v, s).files, p).project == Lower(TrimSpace(s.action.req.project))
    ensures Do(v, s).files - {p} == v.files - {p}
  {
    WrittenHolds(v.files, s.action.req, s.now);
  }

  /** A move changes the project and the time, and nothing else of that file or any other. */
  lemma MoveKeepsContent(v: Vault, s: Step, p: Path)
    requires s.action.Move? && s.action.writes && CanMove(v, s.known, s.action.path, s.action.target)
    requires p == TrimSpace(s.action.path)
    ensures Readable(Do(v, s).files, p) && Do(v, s).files - {p} == v.files - {p}
    ensures Read(Do(v, s).files, p) == Read(v.files, p).(project := TrimSpace(s.action.target), updated := s.now)
  {
    NormalizeTwice(v.files[p].doc);
    NormalizeTwice(Read(v.files, p).(project := TrimSpace(s.action.target), updated := s.now));
  }

  /** Only a removal ends a document; nothing else changes its identity. */
  lemma StepKeepsIdentity(v: Vault, s: Step, p: Path)
    requires Local(s) && FreshId(v, s) && Readable(v.files, p) && p in Do(v, s).files
    ensures Readable(Do(v, s).files, p) && IdentityOf(Do(v, s).files[p].doc) == IdentityOf(v.files[p].doc)
  {
  }

  predicate KeepsIdentity(v: Vault, w: Vault, p: Path) {
    Readable(v.files, p) && p in w.files ==> Readable(w.files, p) && IdentityOf(w.files[p].doc) == IdentityOf(v.files[p].doc)
  }

  lemma {:induction false} IdentityAlong(states: seq<Vault>, i: nat, j: nat, p: Path)
    requires i <= j < |states| && forall k :: i <= k < j ==> KeepsIdentity(states[k], states[k + 1], p)
    requires Readable(states[i].files, p) && forall k :: i <= k <= j ==> p in states[k].files
    ensures Readable(states[j].files, p) && IdentityOf(states[j].files[p].doc) == IdentityOf(states[i].files[p].doc)
    decreases j - i
  {
    if i < j {
      IdentityAlong(states, i, j - 1, p);
      assert KeepsIdentity(states[j - 1], states[j - 1 + 1], p);
    }
  }

  /** While a document exists, its kind, created time and aliases stay what they are. */
  lemma IdentityNeverChanges(states: seq<Vault>, steps: seq<Step>, i: nat, j: nat, p: Path)
    requires IsRun(states, steps) && i <= j <= |steps|
    requires forall k :: i <= k < j ==> Local(steps[k]) && FreshId(states[k], steps[k])
    requires Readable(states[i].files, p) && forall k :: i <= k <= j ==> p in states[k].files
    ensures Readable(states[j].files, p) && IdentityOf(states[j].files[p].doc) == IdentityOf(states[i].files[p].doc)
  {
    forall k | i <= k < j ensures KeepsIdentity(states[k], states[k + 1], p) {
      if Readable(states[k].files, p) && p in states[k + 1].files {
        StepKeepsIdentity(states[k], steps[k], p);
      }
    }
    IdentityAlong(states, i, j, p);
  }

  // ----- each version is replaced once -----

  /** Every file was last written before `now`. */
  ghost predicate WrittenBefore(v: Vault, now: int) {
    forall p: Path :: Readable(v.files, p) ==> v.files[p].doc.updated < now
  }

  ghost predicate Ticking(states: seq<Vault>, steps: seq<Step>) {
    IsRun(states, steps)
    && (steps != [] ==> WrittenBefore(states[0], steps[0].now))
    && (forall k :: 0 <= k < |steps| ==> Local(steps[k]))
    && (forall k, l :: 0 <= k < l < |steps| ==> steps[k].now < steps[l].now)
  }

  /** A step leaves a file as it was, stamps it with the current time, or removes it. */
  lemma StepStamps(v: Vault, s: Step, p: Path)
    requires Local(s) && Readable(Do(v, s).files, p)
    ensures Do(v, s).files[p].doc.updated == s.now || (Readable(v.files, p) && Do(v, s).files[p] == v.files[p])
  {
  }

  lemma {:induction false} StampsInPast(states: seq<Vault>, steps: seq<Step>, n: nat)
    requires Ticking(states, steps) && n < |steps|
    ensures WrittenBefore(states[n], steps[n].now)
  {
    if n > 0 {
      StampsInPast(states, steps, n - 1);
      forall p: Path | Readable(states[n].files, p) ensures states[n].files[p].doc.updated < steps[n].now {
        StepStamps(states[n - 1], steps[n - 1], p);
      }
    }
  }

  lemma {:induction false} StampsStay(states: seq<Vault>, steps: seq<Step>, i: nat, j: nat, p: Path)
    requires Ticking(states, steps) && i < j <= |steps|
    requires Readable(states[i + 1].files, p) ==> states[i + 1].files[p].doc.updated >= steps[i].now
    requires Readable(states[j].files, p)
    ensures states[j].files[p].doc.updated >= steps[i].now
    decreases j - i
  {
    if i + 1 < j {
      StepStamps(states[j - 1], steps[j - 1], p);
      if Readable(states[j - 1].files, p) {
        StampsStay(states, steps, i, j - 1, p);
      }
    }
  }

  /** With a clock that advances between operations, two accepted updates of a document never name
      the same version: of several writers who read one version, at most one gets through. */
  lemma VersionReplacedOnce(states: seq<Vault>, steps: seq<Step>, i: nat, j: nat, p: Path, a: Doc, b: Doc)
    requires Ticking(states, steps) && i < j < |steps|
    requires AcceptedUpdate(states[i], steps[i], p) && Names(steps[i], a)
    requires AcceptedUpdate(states[j], steps[j], p) && Names(steps[j], b)
    ensures a.updated < b.updated
  {
    UpdateReplacesNamedVersion(states[i], steps[i], p);
    UpdateReplacesNamedVersion(states[j], steps[j], p);
    StampsInPast(states, steps, i);
    StepStamps(states[i], steps[i], p);
    StampsStay(states, steps, i, j, p);
  }
}
