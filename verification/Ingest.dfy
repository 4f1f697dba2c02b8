/**
 From a repository at HEAD to what is reconciled (internal/ingest/service.go).
*/
module Ingest {
  import opened Wrappers
  import opened Paths
  import opened Repo
  import opened Fetch
  import opened Pages

  /** The enabled type whose directory is dir: of several, the last. */
  function TypeAt(types: seq<TypeDir>, dir: Path): Option<string> {
    if types == [] then None
    else
      var last := types[|types| - 1];
      if last.dir == dir then Some(last.name) else TypeAt(types[..|types| - 1], dir)
  }

  /** The document of a blob: none outside the type directories, an error when it cannot be parsed. */
  function DocumentOf(r: Readers, cfg: Config, b: Blob): Option<seq<Document>> {
    if b.path == [] then Some([])
    else
      match TypeAt(cfg.types, Dir(b.path))
      case None => Some([])
      case Some(typ) =>
        match r.front(b.content)
        case NoFrontmatter => Some([])
        case Malformed => None
        case Front(_, _, _, _, _) => Some([Document(typ, r.front(b.content), b.path, b.sha, b.content)])
  }

  function Documents(r: Readers, cfg: Config, blobs: seq<Blob>): Option<seq<Document>> {
    if blobs == [] then Some([])
    else if DocumentOf(r, cfg, blobs[0]).None? || Documents(r, cfg, blobs[1..]).None? then None
    else Some(DocumentOf(r, cfg, blobs[0]).value + Documents(r, cfg, blobs[1..]).value)
  }

  /** What Run hands to the store, or None when it fails before that. */
  function Ingested(r: Readers, head: string, branch: string, tree: seq<Entry>): Option<Input> {
    match Fetched(r, head, branch, tree)
    case None => None
    case Some(snap) =>
      match r.parse(snap.config)
      case None => None
      case Some(cfg) =>
        match Documents(r, cfg, snap.blobs)
        case None => None
        case Some(documents) => Some(Input(
          snap.headSHA, snap.branch, cfg,
          snap.changelog, if cfg.changelogEnabled then Some(cfg.changelogFile) else None, snap.index,
          if cfg.apiEnabled then Some(cfg.landingPage) else None,
          if cfg.apiEnabled then cfg.additionalDocs else [],
          documents, Build(r, cfg, snap.blobs)))
  }

  // ---- the loops ----

  ghost predicate Maps(typeByDir: map<Path, string>, types: seq<TypeDir>) {
    forall dir :: TypeAt(types, dir) == if dir in typeByDir then Some(typeByDir[dir]) else None
  }

  lemma MapsNext(typeByDir: map<Path, string>, types: seq<TypeDir>, i: nat)
    requires i < |types| && Maps(typeByDir, types[..i])
    ensures Maps(typeByDir[types[i].dir := types[i].name], types[..i + 1])
  {
    var next := typeByDir[types[i].dir := types[i].name];
    assert types[..i + 1][..i] == types[..i];
    forall dir ensures TypeAt(types[..i + 1], dir) == if dir in next then Some(next[dir]) else None {
      assert TypeAt(types[..i], dir) == if dir in typeByDir then Some(typeByDir[dir]) else None;
    }
  }

  lemma {:induction false} DocumentsAppend(r: Readers, cfg: Config, a: seq<Blob>, b: seq<Blob>)
    ensures Documents(r, cfg, a + b) ==
      if Documents(r, cfg, a).None? || Documents(r, cfg, b).None? then None
      else Some(Documents(r, cfg, a).value + Documents(r, cfg, b).value)
  {
    if a == [] {
      assert a + b == b;
      if Documents(r, cfg, b).Some? {
        assert [] + Documents(r, cfg, b).value == Documents(r, cfg, b).value;
      }
    } else {
      assert (a + b)[0] == a[0] && (a + b)[1..] == a[1..] + b;
      DocumentsAppend(r, cfg, a[1..], b);
      var first, x, y := DocumentOf(r, cfg, a[0]), Documents(r, cfg, a[1..]), Documents(r, cfg, b);
      if first.Some? && x.Some? && y.Some? {
        assert first.value + x.value + y.value == first.value + (x.value + y.value);
      }
    }
  }

  lemma DocumentsOfOne(r: Readers, cfg: Config, b: Blob)
    ensures Documents(r, cfg, [b]) == DocumentOf(r, cfg, b)
  {
    assert [b][1..] == [];
    var d := DocumentOf(r, cfg, b);
    if d.Some? {
      assert d.value + [] == d.value;
    }
  }

  lemma DocumentsNext(r: Readers, cfg: Config, blobs: seq<Blob>, i: nat)
    requires i < |blobs| && Documents(r, cfg, blobs[..i]).Some?
    ensures var d := DocumentOf(r, cfg, blobs[i]);
      && Documents(r, cfg, blobs[..i + 1]) == (if d.None? then None else Some(Documents(r, cfg, blobs[..i]).value + d.value))
      && (d.None? ==> Documents(r, cfg, blobs).None?)
  {
    var one := [blobs[i]];
    DocumentsOfOne(r, cfg, blobs[i]);
    assert blobs[..i + 1] == blobs[..i] + one && blobs == blobs[..i + 1] + blobs[i + 1..];
    hide Documents, DocumentOf;
    DocumentsAppend(r, cfg, blobs[..i], one);
    DocumentsAppend(r, cfg, blobs[..i + 1], blobs[i + 1..]);
  }

  method BuildDocuments(r: Readers, cfg: Config, blobs: seq<Blob>) returns (docs: Option<seq<Document>>)
    ensures docs == Documents(r, cfg, blobs)
  {
    var typeByDir: map<Path, string> := map[];
    for i := 0 to |cfg.types|
      invariant Maps(typeByDir, cfg.types[..i])
    {
      MapsNext(typeByDir, cfg.types, i);
      typeByDir := typeByDir[cfg.types[i].dir := cfg.types[i].name];
    }
    assert cfg.types[..|cfg.types|] == cfg.types;
    var out: seq<Document> := [];
    for i := 0 to |blobs|
      invariant Documents(r, cfg, blobs[..i]) == Some(out)
    {
      var blob := blobs[i];
      DocumentsNext(r, cfg, blobs, i);
      assert out + [] == out;
      if blob.path == [] || Dir(blob.path) !in typeByDir {
        continue;
      }
      var typeName := typeByDir[Dir(blob.path)];
      var fm := r.front(blob.content);
      if fm.NoFrontmatter? {
        continue;
      }
      if fm.Malformed? {
        return None;
      }
      out := out + [Document(typeName, fm, blob.path, blob.sha, blob.content)];
    }
    assert blobs[..|blobs|] == blobs;
    return Some(out);
  }

  /** Run, up to the reconcile. */
  method BuildInput(r: Readers, head: string, branch: string, tree: seq<Entry>) returns (input: Option<Input>)
    ensures input == Ingested(r, head, branch, tree)
  {
    var fetched := FetchRepo(r, head, branch, tree);
    if fetched.None? { return None; }
    var snap := fetched.value;
    var parsed := r.parse(snap.config);
    if parsed.None? { return None; }
    var cfg := parsed.value;
    var documents := BuildDocuments(r, cfg, snap.blobs);
    if documents.None? { return None; }
    var pages := BuildPages(r, cfg, snap.blobs);
    return Some(Input(
      snap.headSHA, snap.branch, cfg,
      snap.changelog, if cfg.changelogEnabled then Some(cfg.changelogFile) else None, snap.index,
      if cfg.apiEnabled then Some(cfg.landingPage) else None,
      if cfg.apiEnabled then cfg.additionalDocs else [],
      documents.value, pages));
  }

  // ---- the pages of a fetched tree ----

  /** b is the file at its path in the tree. */
  predicate IsFile(tree: seq<Entry>, b: Blob, contents: string -> string) {
    Find(tree, b.path) == Some(b.sha) && b.content == contents(b.sha)
  }

  lemma {:induction false} FindIffIn(tree: seq<Entry>, p: Path, sha: string)
    requires WellFormed(tree)
    ensures Find(tree, p) == Some(sha) <==> Entry(p, true, sha) in tree
  {
    if tree != [] {
      TailWellFormed(tree);
      FindIffIn(tree[1..], p, sha);
    }
  }

  lemma TailWellFormed(tree: seq<Entry>)
    requires WellFormed(tree) && tree != []
    ensures WellFormed(tree[1..])
    ensures forall e | e in tree[1..] :: e.path != tree[0].path
  {
    var tail := tree[1..];
    assert forall i | 0 <= i < |tail| :: tail[i] == tree[i + 1];
    forall i, j | 0 <= i < |tail| && 0 <= j < |tail| && tail[i].path == tail[j].path ensures i == j {
      assert tree[i + 1].path == tree[j + 1].path;
    }
    forall i, j | 0 <= i < |tail| && 0 <= j < |tail| && tail[i].isBlob ensures !Under(tail[j].path, tail[i].path) {
      assert tree[i + 1].isBlob;
    }
  }

  lemma {:induction false} ClassifiedAreIn(tree: seq<Entry>, dir: Path, apiEnabled: bool, e: Entry)
    requires e in Classified(tree, dir, apiEnabled)
    ensures e in tree && e.isBlob
  {
    if e in Classified(tree[1..], dir, apiEnabled) {
      ClassifiedAreIn(tree[1..], dir, apiEnabled, e);
    }
  }

  lemma {:induction false} BlobsAreOf(entries: seq<Entry>, contents: string -> string, b: Blob) returns (e: Entry)
    requires b in Blobs(entries, contents)
    ensures e in entries && b == Blob(e.path, e.sha, contents(e.sha))
  {
    if b == Blob(entries[0].path, entries[0].sha, contents(entries[0].sha)) {
      e := entries[0];
    } else {
      e := BlobsAreOf(entries[1..], contents, b);
    }
  }

  lemma {:induction false} AdditionalAreFiles(tree: seq<Entry>, entries: seq<Path>, contents: string -> string, b: Blob)
    requires b in Additional(tree, entries, contents)
    ensures IsFile(tree, b, contents)
  {
    if b in Additional(tree, entries[1..], contents) {
      AdditionalAreFiles(tree, entries[1..], contents, b);
    }
  }

  /** Every blob fetched is a file of the tree. */
  lemma BlobsAreFiles(r: Readers, head: string, branch: string, tree: seq<Entry>, b: Blob)
    requires WellFormed(tree) && Fetched(r, head, branch, tree).Some?
    requires b in Fetched(r, head, branch, tree).value.blobs
    ensures IsFile(tree, b, r.contents)
  {
    var h := r.hints(Load(tree, CONFIG_FILE, r.contents).value.content);
    var docs := Classified(tree, h.dir, h.apiEnabled);
    if b in Blobs(docs, r.contents) {
      var e := BlobsAreOf(docs, r.contents, b);
      ClassifiedAreIn(tree, h.dir, h.apiEnabled, e);
      FindIffIn(tree, e.path, e.sha);
    } else {
      AdditionalAreFiles(tree, h.additionalDocs, r.contents, b);
    }
  }

  /** The pages ingested from a well-formed tree have distinct published paths. */
  lemma IngestedPagesAreFunctional(r: Readers, head: string, branch: string, tree: seq<Entry>)
    requires WellFormed(tree) && Ingested(r, head, branch, tree).Some?
    ensures Functional(Ingested(r, head, branch, tree).value.pages)
  {
    var blobs := Fetched(r, head, branch, tree).value.blobs;
    forall b, c | b in blobs && c in blobs
      ensures b.path == c.path ==> b == c
      ensures !Under(c.path, b.path)
    {
      BlobsAreFiles(r, head, branch, tree, b);
      BlobsAreFiles(r, head, branch, tree, c);
      FindIffIn(tree, b.path, b.sha);
      FindIffIn(tree, c.path, c.sha);
    }
    PublishedPathsAreFunctional(r, r.parse(Fetched(r, head, branch, tree).value.config).value, blobs);
  }
}
