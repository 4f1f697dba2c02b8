/** What is fetched of a repository's tree (internal/githubapp/client.go). */
module Fetch {
  import opened Wrappers
  import opened Paths
  import opened Repo

  /** The blob at exactly p. */
  function Find(tree: seq<Entry>, p: Path): Option<string> {
    if tree == [] then None
    else if tree[0].isBlob && tree[0].path == p then Some(tree[0].sha)
    else Find(tree[1..], p)
  }

  function Load(tree: seq<Entry>, p: Path, contents: string -> string): Option<File> {
    match Find(tree, p)
    case None => None
    case Some(sha) => Some(File(sha, contents(sha)))
  }

  /** Whether the fetch takes a tree entry as a document or a page candidate. */
  predicate Wanted(e: Entry, dir: Path, apiEnabled: bool) {
    e.isBlob && e.path != [] && (IsDoczFile(Base(e.path)) || (apiEnabled && Under(e.path, dir) && IsMarkdown(e.path)))
  }

  function Classified(tree: seq<Entry>, dir: Path, apiEnabled: bool): seq<Entry> {
    if tree == [] then []
    else (if Wanted(tree[0], dir, apiEnabled) then [tree[0]] else []) + Classified(tree[1..], dir, apiEnabled)
  }

  function Blobs(entries: seq<Entry>, contents: string -> string): seq<Blob> {
    if entries == [] then []
    else [Blob(entries[0].path, entries[0].sha, contents(entries[0].sha))] + Blobs(entries[1..], contents)
  }

  function Additional(tree: seq<Entry>, entries: seq<Path>, contents: string -> string): seq<Blob> {
    if entries == [] then []
    else
      (match Find(tree, entries[0])
       case Some(sha) => if IsMarkdown(entries[0]) then [Blob(entries[0], sha, contents(sha))] else []
       case None => [])
      + Additional(tree, entries[1..], contents)
  }

  /** What Fetch returns, or None when there is no .docz.yaml. */
  function Fetched(r: Readers, head: string, branch: string, tree: seq<Entry>): Option<Snapshot> {
    match Load(tree, CONFIG_FILE, r.contents)
    case None => None
    case Some(config) =>
      var h := r.hints(config.content);
      Some(Snapshot(head, branch, config.content,
        if h.changelogEnabled then Load(tree, h.changelogFile, r.contents) else None,
        Load(tree, LandingPath(h), r.contents),
        Blobs(Classified(tree, h.dir, h.apiEnabled), r.contents)
          + if h.apiEnabled then Additional(tree, h.additionalDocs, r.contents) else []))
  }

  // ---- the loops ----

  lemma {:induction false} FindAt(tree: seq<Entry>, p: Path, i: nat)
    requires i <= |tree| && forall j | 0 <= j < i :: !(tree[j].isBlob && tree[j].path == p)
    ensures Find(tree, p) == Find(tree[i..], p)
  {
    if i > 0 {
      FindAt(tree[1..], p, i - 1);
      assert tree[1..][i - 1..] == tree[i..];
    } else {
      assert tree[0..] == tree;
    }
  }

  method FindBlobSHA(tree: seq<Entry>, p: Path) returns (sha: Option<string>)
    ensures sha == Find(tree, p)
  {
    for i := 0 to |tree|
      invariant forall j | 0 <= j < i :: !(tree[j].isBlob && tree[j].path == p)
    {
      if tree[i].isBlob && tree[i].path == p {
        FindAt(tree, p, i);
        return Some(tree[i].sha);
      }
    }
    FindAt(tree, p, |tree|);
    return None;
  }

  lemma {:induction false} ClassifiedAppend(a: seq<Entry>, b: seq<Entry>, dir: Path, apiEnabled: bool)
    ensures Classified(a + b, dir, apiEnabled) == Classified(a, dir, apiEnabled) + Classified(b, dir, apiEnabled)
  {
    if a == [] {
      assert a + b == b;
    } else {
      assert (a + b)[0] == a[0] && (a + b)[1..] == a[1..] + b;
      ClassifiedAppend(a[1..], b, dir, apiEnabled);
    }
  }

  method ClassifyTree(tree: seq<Entry>, dir: Path, apiEnabled: bool) returns (docs: seq<Entry>)
    ensures docs == Classified(tree, dir, apiEnabled)
  {
    docs := [];
    for i := 0 to |tree|
      invariant docs == Classified(tree[..i], dir, apiEnabled)
    {
      var e := tree[i];
      assert tree[..i + 1] == tree[..i] + [e];
      ClassifiedAppend(tree[..i], [e], dir, apiEnabled);
      if !e.isBlob || e.path == [] {
        continue;
      }
      if IsDoczFile(Base(e.path)) {
        docs := docs + [e];
      } else if apiEnabled && Under(e.path, dir) && IsMarkdown(e.path) {
        docs := docs + [e];
      }
    }
    assert tree[..|tree|] == tree;
  }

  lemma {:induction false} BlobsAppend(a: seq<Entry>, b: seq<Entry>, contents: string -> string)
    ensures Blobs(a + b, contents) == Blobs(a, contents) + Blobs(b, contents)
  {
    if a == [] {
      assert a + b == b;
    } else {
      assert (a + b)[0] == a[0] && (a + b)[1..] == a[1..] + b;
      BlobsAppend(a[1..], b, contents);
    }
  }

  method FetchDocBlobs(entries: seq<Entry>, contents: string -> string) returns (blobs: seq<Blob>)
    ensures blobs == Blobs(entries, contents)
  {
    blobs := [];
    for i := 0 to |entries|
      invariant blobs == Blobs(entries[..i], contents)
    {
      var e := entries[i];
      assert entries[..i + 1] == entries[..i] + [e];
      BlobsAppend(entries[..i], [e], contents);
      blobs := blobs + [Blob(e.path, e.sha, contents(e.sha))];
    }
    assert entries[..|entries|] == entries;
  }

  lemma {:induction false} AdditionalAppend(tree: seq<Entry>, a: seq<Path>, b: seq<Path>, contents: string -> string)
    ensures Additional(tree, a + b, contents) == Additional(tree, a, contents) + Additional(tree, b, contents)
  {
    if a == [] {
      assert a + b == b;
    } else {
      assert (a + b)[0] == a[0] && (a + b)[1..] == a[1..] + b;
      AdditionalAppend(tree, a[1..], b, contents);
    }
  }

  method FetchAdditionalDocs(tree: seq<Entry>, entries: seq<Path>, contents: string -> string) returns (blobs: seq<Blob>)
    ensures blobs == Additional(tree, entries, contents)
  {
    blobs := [];
    for i := 0 to |entries|
      invariant blobs == Additional(tree, entries[..i], contents)
    {
      var entry := entries[i];
      assert entries[..i + 1] == entries[..i] + [entry];
      AdditionalAppend(tree, entries[..i], [entry], contents);
      if !IsMarkdown(entry) {
        continue;
      }
      var sha := FindBlobSHA(tree, entry);
      if sha.None? {
        continue;
      }
      blobs := blobs + [Blob(entry, sha.value, contents(sha.value))];
    }
    assert entries[..|entries|] == entries;
  }

  method FetchRepo(r: Readers, head: string, branch: string, tree: seq<Entry>) returns (snap: Option<Snapshot>)
    ensures snap == Fetched(r, head, branch, tree)
  {
    var configSHA := FindBlobSHA(tree, CONFIG_FILE);
    if configSHA.None? { return None; }
    var config := r.contents(configSHA.value);
    var h := r.hints(config);
    var changelog, index := None, None;
    if h.changelogEnabled {
      var sha := FindBlobSHA(tree, h.changelogFile);
      if sha.Some? { changelog := Some(File(sha.value, r.contents(sha.value))); }
    }
    var indexSHA := FindBlobSHA(tree, LandingPath(h));
    if indexSHA.Some? { index := Some(File(indexSHA.value, r.contents(indexSHA.value))); }
    var docs := ClassifyTree(tree, h.dir, h.apiEnabled);
    var blobs := FetchDocBlobs(docs, r.contents);
    if h.apiEnabled {
      var extra := FetchAdditionalDocs(tree, h.additionalDocs, r.contents);
      blobs := blobs + extra;
    } else {
      assert blobs + [] == blobs;
    }
    return Some(Snapshot(head, branch, config, changelog, index, blobs));
  }
}
