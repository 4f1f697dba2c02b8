/**
 Which files an enabled api: block publishes, and where
 (internal/ingest/pages.go).
*/
module Pages {
  import opened Wrappers
  import opened Paths
  import opened Repo

  /** The prefixes never published: templates/ and api.exclude, repo-relative. */
  function ExcludePrefixes(cfg: Config): seq<Path> {
    [cfg.dir + [TEMPLATES_DIR]] + seq(|cfg.exclude|, i requires 0 <= i < |cfg.exclude| => cfg.dir + cfg.exclude[i])
  }

  predicate Excluded(cfg: Config, p: Path) {
    var prefixes := ExcludePrefixes(cfg);
    exists i :: 0 <= i < |prefixes| && (p == prefixes[i] || Under(p, prefixes[i]))
  }

  predicate InTypeDir(cfg: Config, p: Path) {
    exists i :: 0 <= i < |cfg.types| && Under(p, cfg.types[i].dir)
  }

  /** A docs_dir file that may be published at all. */
  predicate Publishable(cfg: Config, p: Path) {
    Under(p, cfg.dir) && !Excluded(cfg, p) && !InTypeDir(cfg, p)
  }

  /** p is a README.md that makes its directory a page. */
  predicate Claims(cfg: Config, p: Path) {
    Publishable(cfg, p) && |Rel(p, cfg.dir)| > 1 && Base(p) == README_NAME
  }

  /** The docs_dir-relative directories that own a README.md. */
  function ReadmeDirs(cfg: Config, blobs: seq<Blob>): set<Path> {
    set b | b in blobs && Claims(cfg, b.path) :: Dir(Rel(b.path, cfg.dir))
  }

  /** The path a docs_dir file is published at. */
  function Published(cfg: Config, readmes: set<Path>, p: Path): Option<Path> {
    if p == cfg.landingPage || !IsMarkdown(p) || !Publishable(cfg, p) then None
    else
      var rel := Rel(p, cfg.dir);
      if |rel| > 1 && (Base(p) == README_NAME || (Base(p) == INDEX_NAME && Dir(rel) !in readmes))
      then Some(Dir(rel))
      else Some(rel)
  }

  predicate SafeChar(c: char) {
    c >= ' ' && c != '\U{7F}' && c != '\\'
  }

  /** validPublishedPath, for a path with no empty and no dot segments. */
  predicate Valid(p: Path) {
    p != [] && forall i, j | 0 <= i < |p| && 0 <= j < |p[i]| :: SafeChar(p[i][j])
  }

  /** pageInput; the title falls back on the published path's last segment. */
  function Row(r: Readers, b: Blob, at: Path): Page {
    Page(at, b.path, r.title(b.content, if at == [] then "" else Base(at)), b.sha, b.content)
  }

  /** The page of one docs_dir blob, if it has one. */
  function PageOf(r: Readers, cfg: Config, readmes: set<Path>, b: Blob): seq<Page> {
    match Published(cfg, readmes, b.path)
    case None => []
    case Some(at) => if Valid(at) then [Row(r, b, at)] else []
  }

  function DocsPages(r: Readers, cfg: Config, readmes: set<Path>, blobs: seq<Blob>): seq<Page> {
    if blobs == [] then [] else PageOf(r, cfg, readmes, blobs[0]) + DocsPages(r, cfg, readmes, blobs[1..])
  }

  /** The last blob at p: a later one replaces an earlier one in the map. */
  function BlobAt(blobs: seq<Blob>, p: Path): Option<Blob> {
    if blobs == [] then None
    else if blobs[|blobs| - 1].path == p then Some(blobs[|blobs| - 1])
    else BlobAt(blobs[..|blobs| - 1], p)
  }

  lemma {:induction false} BlobAtIsIn(blobs: seq<Blob>, p: Path)
    ensures BlobAt(blobs, p).Some? ==> BlobAt(blobs, p).value in blobs && BlobAt(blobs, p).value.path == p
    ensures BlobAt(blobs, p).None? ==> forall b | b in blobs :: b.path != p
  {
    if blobs != [] {
      var front, last := blobs[..|blobs| - 1], blobs[|blobs| - 1];
      assert blobs == front + [last];
      BlobAtIsIn(front, p);
    }
  }

  predicate Takes(pages: seq<Page>, p: Path) {
    exists i :: 0 <= i < |pages| && pages[i].path == p
  }

  /** The page of one additional_docs entry, where no docs_dir page has the path. */
  function ExtraOf(r: Readers, docs: seq<Page>, blobs: seq<Blob>, entry: Path): seq<Page> {
    if !IsMarkdown(entry) || Takes(docs, entry) then []
    else match BlobAt(blobs, entry)
      case None => []
      case Some(b) => [Row(r, b, entry)]
  }

  function ExtraPages(r: Readers, docs: seq<Page>, blobs: seq<Blob>, entries: seq<Path>): seq<Page> {
    if entries == [] then [] else ExtraOf(r, docs, blobs, entries[0]) + ExtraPages(r, docs, blobs, entries[1..])
  }

  /** What buildPages returns. */
  function Build(r: Readers, cfg: Config, blobs: seq<Blob>): seq<Page> {
    if !cfg.apiEnabled then []
    else
      var docs := DocsPages(r, cfg, ReadmeDirs(cfg, blobs), blobs);
      docs + ExtraPages(r, docs, blobs, cfg.additionalDocs)
  }

  // ---- published paths are functional ----

  ghost predicate Functional(pages: seq<Page>) {
    forall x, y | x in pages && y in pages && x.path == y.path :: x == y
  }

  /** Blobs at one path are one blob, and none is a directory of another. */
  ghost predicate FileSet(blobs: seq<Blob>) {
    && (forall b, c | b in blobs && c in blobs && b.path == c.path :: b == c)
    && (forall b, c | b in blobs && c in blobs :: !Under(c.path, b.path))
  }

  lemma {:induction false} DocsPageSource(r: Readers, cfg: Config, readmes: set<Path>, blobs: seq<Blob>, page: Page) returns (b: Blob)
    requires page in DocsPages(r, cfg, readmes, blobs)
    ensures b in blobs && Published(cfg, readmes, b.path) == Some(page.path) && page == Row(r, b, page.path)
  {
    if page in PageOf(r, cfg, readmes, blobs[0]) {
      b := blobs[0];
    } else {
      b := DocsPageSource(r, cfg, readmes, blobs[1..], page);
    }
  }

  lemma FileAboveFile(p: Path, q: Path, dir: Path, x: Path, y: Path)
    requires p == dir + x && q == dir + y && y != [] && p != []
    ensures x == Dir(y) ==> Under(q, p)
  {
    if x == Dir(y) {
      assert q[..|p|] == p;
    }
  }

  /** A file published elsewhere than at its own place is its directory's README.md, or its index.md for want of one. */
  lemma PublishedAtDir(cfg: Config, blobs: seq<Blob>, b: Blob, at: Path)
    requires b in blobs && Published(cfg, ReadmeDirs(cfg, blobs), b.path) == Some(at)
    ensures Under(b.path, cfg.dir)
    ensures var rel := Rel(b.path, cfg.dir);
      rel == at || (rel == at + [Base(b.path)] && Base(b.path) == if at in ReadmeDirs(cfg, blobs) then README_NAME else INDEX_NAME)
  {
    var rel := Rel(b.path, cfg.dir);
    assert rel == Dir(rel) + [Base(b.path)];
    assert Claims(cfg, b.path) ==> Dir(rel) in ReadmeDirs(cfg, blobs);
    hide Excluded, InTypeDir, IsMarkdown;
  }

  /** Two files of docs_dir published at one path are one file. */
  lemma PublishedIsInjective(cfg: Config, blobs: seq<Blob>, b: Blob, c: Blob)
    requires FileSet(blobs) && b in blobs && c in blobs
    requires Published(cfg, ReadmeDirs(cfg, blobs), b.path).Some?
    requires Published(cfg, ReadmeDirs(cfg, blobs), b.path) == Published(cfg, ReadmeDirs(cfg, blobs), c.path)
    ensures b == c
  {
    var at := Published(cfg, ReadmeDirs(cfg, blobs), b.path).value;
    PublishedAtDir(cfg, blobs, b, at);
    PublishedAtDir(cfg, blobs, c, at);
    hide Published, ReadmeDirs;
    var p, q := b.path, c.path;
    var x, y := Rel(p, cfg.dir), Rel(q, cfg.dir);
    assert p == cfg.dir + x && q == cfg.dir + y;
    FileAboveFile(p, q, cfg.dir, x, y);
    FileAboveFile(q, p, cfg.dir, y, x);
    assert (at + [Base(p)])[..|at|] == at && (at + [Base(q)])[..|at|] == at;
  }

  lemma {:induction false} ExtraPageSource(r: Readers, docs: seq<Page>, blobs: seq<Blob>, entries: seq<Path>, page: Page)
    requires page in ExtraPages(r, docs, blobs, entries)
    ensures !Takes(docs, page.path) && BlobAt(blobs, page.path).Some?
    ensures page == Row(r, BlobAt(blobs, page.path).value, page.path)
  {
    if page in ExtraPages(r, docs, blobs, entries[1..]) {
      ExtraPageSource(r, docs, blobs, entries[1..], page);
    }
  }

  /**
   No two page rows share a published path, whatever the README, index, file
   and additional_docs pages a set of files and a config give rise to.
  */
  lemma PublishedPathsAreFunctional(r: Readers, cfg: Config, blobs: seq<Blob>)
    requires FileSet(blobs)
    ensures Functional(Build(r, cfg, blobs))
  {
    var readmes := ReadmeDirs(cfg, blobs);
    var docs := DocsPages(r, cfg, readmes, blobs);
    var extra := ExtraPages(r, docs, blobs, cfg.additionalDocs);
    forall x, y | x in Build(r, cfg, blobs) && y in Build(r, cfg, blobs) && x.path == y.path ensures x == y {
      if x in docs && y in docs {
        var b := DocsPageSource(r, cfg, readmes, blobs, x);
        var c := DocsPageSource(r, cfg, readmes, blobs, y);
        PublishedIsInjective(cfg, blobs, b, c);
      } else {
        if x in extra {
          ExtraPageSource(r, docs, blobs, cfg.additionalDocs, x);
        }
        if y in extra {
          ExtraPageSource(r, docs, blobs, cfg.additionalDocs, y);
        }
      }
    }
  }

  // ---- the loops ----

  method IsExcluded(cfg: Config, p: Path) returns (excluded: bool)
    ensures excluded == Excluded(cfg, p)
  {
    var prefixes := ExcludePrefixes(cfg);
    for i := 0 to |prefixes|
      invariant forall j | 0 <= j < i :: p != prefixes[j] && !Under(p, prefixes[j])
    {
      if p == prefixes[i] || Under(p, prefixes[i]) {
        return true;
      }
    }
    return false;
  }

  /** td is the first type directory above p. */
  predicate FirstAbove(types: seq<TypeDir>, p: Path, td: Path) {
    exists i :: 0 <= i < |types| && types[i].dir == td && Under(p, td) && forall j | 0 <= j < i :: !Under(p, types[j].dir)
  }

  method TypeDirOf(cfg: Config, p: Path) returns (td: Option<Path>)
    ensures td.Some? <==> InTypeDir(cfg, p)
    ensures td.Some? ==> FirstAbove(cfg.types, p, td.value)
  {
    for i := 0 to |cfg.types|
      invariant forall j | 0 <= j < i :: !Under(p, cfg.types[j].dir)
    {
      if Under(p, cfg.types[i].dir) {
        return Some(cfg.types[i].dir);
      }
    }
    return None;
  }

  method ClaimReadmeDirs(cfg: Config, blobs: seq<Blob>) returns (readmes: set<Path>)
    ensures readmes == ReadmeDirs(cfg, blobs)
  {
    readmes := {};
    for i := 0 to |blobs|
      invariant readmes == ReadmeDirs(cfg, blobs[..i])
    {
      var p := blobs[i].path;
      assert blobs[..i + 1] == blobs[..i] + [blobs[i]];
      if !Under(p, cfg.dir) {
        continue;
      }
      var excluded := IsExcluded(cfg, p);
      var td := TypeDirOf(cfg, p);
      if excluded || td.Some? {
        continue;
      }
      var rel := Rel(p, cfg.dir);
      if |rel| > 1 && Base(rel) == README_NAME {
        readmes := readmes + {Dir(rel)};
      }
    }
    assert blobs[..|blobs|] == blobs;
  }

  method ClassifyDocsDir(cfg: Config, readmes: set<Path>, p: Path) returns (published: Option<Path>)
    ensures published == Published(cfg, readmes, p)
  {
    if p == cfg.landingPage { return None; }
    if !Under(p, cfg.dir) || !IsMarkdown(p) { return None; }
    var excluded := IsExcluded(cfg, p);
    if excluded { return None; }
    var td := TypeDirOf(cfg, p);
    if td.Some? { return None; }
    var rel := Rel(p, cfg.dir);
    if |rel| > 1 {
      if Base(rel) == README_NAME { return Some(Dir(rel)); }
      if Base(rel) == INDEX_NAME && Dir(rel) !in readmes { return Some(Dir(rel)); }
    }
    return Some(rel);
  }

  lemma {:induction false} DocsPagesAppend(r: Readers, cfg: Config, readmes: set<Path>, a: seq<Blob>, b: seq<Blob>)
    ensures DocsPages(r, cfg, readmes, a + b) == DocsPages(r, cfg, readmes, a) + DocsPages(r, cfg, readmes, b)
  {
    if a == [] {
      assert a + b == b;
    } else {
      assert (a + b)[0] == a[0] && (a + b)[1..] == a[1..] + b;
      DocsPagesAppend(r, cfg, readmes, a[1..], b);
    }
  }

  lemma {:induction false} ExtraPagesAppend(r: Readers, docs: seq<Page>, blobs: seq<Blob>, a: seq<Path>, b: seq<Path>)
    ensures ExtraPages(r, docs, blobs, a + b) == ExtraPages(r, docs, blobs, a) + ExtraPages(r, docs, blobs, b)
  {
    if a == [] {
      assert a + b == b;
    } else {
      assert (a + b)[0] == a[0] && (a + b)[1..] == a[1..] + b;
      ExtraPagesAppend(r, docs, blobs, a[1..], b);
    }
  }

  lemma DocsPagesNext(r: Readers, cfg: Config, readmes: set<Path>, blobs: seq<Blob>, i: nat)
    requires i < |blobs|
    ensures DocsPages(r, cfg, readmes, blobs[..i + 1]) == DocsPages(r, cfg, readmes, blobs[..i]) + PageOf(r, cfg, readmes, blobs[i])
  {
    assert blobs[..i + 1] == blobs[..i] + [blobs[i]];
    DocsPagesAppend(r, cfg, readmes, blobs[..i], [blobs[i]]);
    assert DocsPages(r, cfg, readmes, [blobs[i]]) == PageOf(r, cfg, readmes, blobs[i]);
  }

  lemma ExtraPagesNext(r: Readers, docs: seq<Page>, blobs: seq<Blob>, entries: seq<Path>, i: nat)
    requires i < |entries|
    ensures ExtraPages(r, docs, blobs, entries[..i + 1]) ==
      ExtraPages(r, docs, blobs, entries[..i]) + ExtraOf(r, docs, blobs, entries[i])
  {
    assert entries[..i + 1] == entries[..i] + [entries[i]];
    ExtraPagesAppend(r, docs, blobs, entries[..i], [entries[i]]);
    assert ExtraPages(r, docs, blobs, [entries[i]]) == ExtraOf(r, docs, blobs, entries[i]);
  }

  /** The map the loop builds answers like BlobAt. */
  ghost predicate Indexes(blobByPath: map<Path, Blob>, blobs: seq<Blob>) {
    forall p :: BlobAt(blobs, p) == if p in blobByPath then Some(blobByPath[p]) else None
  }

  lemma IndexesNext(blobByPath: map<Path, Blob>, blobs: seq<Blob>, i: nat)
    requires i < |blobs| && Indexes(blobByPath, blobs[..i])
    ensures Indexes(blobByPath[blobs[i].path := blobs[i]], blobs[..i + 1])
  {
    var b := blobs[i];
    var next := blobByPath[b.path := b];
    assert blobs[..i + 1][..i] == blobs[..i];
    forall p ensures BlobAt(blobs[..i + 1], p) == if p in next then Some(next[p]) else None {
      assert BlobAt(blobs[..i], p) == if p in blobByPath then Some(blobByPath[p]) else None;
    }
  }

  /** The paths taken are those of the pages. */
  ghost predicate Records(taken: map<Path, Path>, pages: seq<Page>) {
    forall p :: p in taken <==> Takes(pages, p)
  }

  lemma RecordsNext(taken: map<Path, Path>, pages: seq<Page>, page: Page)
    requires Records(taken, pages)
    ensures Records(taken[page.path := page.repoPath], pages + [page])
  {
    forall p ensures p in taken[page.path := page.repoPath] <==> Takes(pages + [page], p) {
      assert (pages + [page])[|pages|] == page;
      assert forall i | 0 <= i < |pages| :: (pages + [page])[i] == pages[i];
      assert p in taken <==> Takes(pages, p);
    }
  }

  method BuildPages(r: Readers, cfg: Config, blobs: seq<Blob>) returns (pages: seq<Page>)
    ensures pages == Build(r, cfg, blobs)
  {
    if !cfg.apiEnabled { return []; }
    hide ReadmeDirs, Published, Valid, Excluded, InTypeDir, BlobAt, Takes;
    var readmes := ClaimReadmeDirs(cfg, blobs);
    pages := [];
    var taken: map<Path, Path> := map[];
    var blobByPath: map<Path, Blob> := map[];
    StartsEmpty();
    for i := 0 to |blobs|
      invariant pages == DocsPages(r, cfg, readmes, blobs[..i])
      invariant Records(taken, pages)
      invariant Indexes(blobByPath, blobs[..i])
    {
      var blob := blobs[i];
      DocsPagesNext(r, cfg, readmes, blobs, i);
      IndexesNext(blobByPath, blobs, i);
      blobByPath := blobByPath[blob.path := blob];
      var published := ClassifyDocsDir(cfg, readmes, blob.path);
      if published.None? || !Valid(published.value) {
        continue;
      }
      RecordsNext(taken, pages, Row(r, blob, published.value));
      pages := pages + [Row(r, blob, published.value)];
      taken := taken[published.value := blob.path];
    }
    assert blobs[..|blobs|] == blobs;
    ghost var docs := pages;
    for i := 0 to |cfg.additionalDocs|
      invariant pages == docs + ExtraPages(r, docs, blobs, cfg.additionalDocs[..i])
    {
      var entry := cfg.additionalDocs[i];
      ExtraPagesNext(r, docs, blobs, cfg.additionalDocs, i);
      if !IsMarkdown(entry) {
        continue;
      }
      if entry !in blobByPath {
        continue;
      }
      if entry in taken {
        continue;
      }
      pages := pages + [Row(r, blobByPath[entry], entry)];
    }
    assert cfg.additionalDocs[..|cfg.additionalDocs|] == cfg.additionalDocs;
  }

  lemma StartsEmpty()
    ensures Records(map[], []) && Indexes(map[], [])
  {
  }
}
