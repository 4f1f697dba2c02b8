/**
 What a tree is ingested as, told from the tree: which files are documents, and
 which are pages and where (internal/githubapp/client.go,
 internal/ingest/pages.go, service.go).
*/
module TreePages {
  import opened Wrappers
  import opened Paths
  import opened Repo
  import opened Fetch
  import opened Pages
  import opened Ingest

  // ---- what is fetched ----

  /** A file of the tree, with what git has under its sha. */
  predicate FileOf(r: Readers, tree: seq<Entry>, p: Path, sha: string, content: string) {
    Entry(p, true, sha) in tree && content == r.contents(sha)
  }

  ghost predicate HasFile(tree: seq<Entry>, p: Path) {
    exists sha :: Entry(p, true, sha) in tree
  }

  predicate Inside(p: Path, dir: Path) {
    dir != [] && dir < p
  }

  /** The fetch takes docz documents anywhere and, for the pages, markdown in docs_dir and the additional documents. */
  predicate Taken(cfg: Config, p: Path) {
    && p != []
    && (IsDoczFile(p[|p| - 1]) || (cfg.apiEnabled && IsMarkdown(p) && (Inside(p, cfg.dir) || p in cfg.additionalDocs)))
  }

  lemma {:induction false} ClassifiedIff(tree: seq<Entry>, dir: Path, apiEnabled: bool, e: Entry)
    ensures e in Classified(tree, dir, apiEnabled) <==> e in tree && Wanted(e, dir, apiEnabled)
  {
    if tree != [] {
      ClassifiedIff(tree[1..], dir, apiEnabled, e);
    }
  }

  lemma {:induction false} BlobsIff(entries: seq<Entry>, contents: string -> string, b: Blob)
    ensures b in Blobs(entries, contents) <==> exists e :: e in entries && b == Blob(e.path, e.sha, contents(e.sha))
  {
    if entries != [] {
      BlobsIff(entries[1..], contents, b);
      if exists e :: e in entries && b == Blob(e.path, e.sha, contents(e.sha)) {
        var e :| e in entries && b == Blob(e.path, e.sha, contents(e.sha));
        assert e == entries[0] || e in entries[1..];
      }
    }
  }

  lemma {:induction false} AdditionalIff(tree: seq<Entry>, entries: seq<Path>, contents: string -> string, b: Blob)
    ensures b in Additional(tree, entries, contents) <==>
      b.path in entries && IsMarkdown(b.path) && Find(tree, b.path) == Some(b.sha) && b.content == contents(b.sha)
  {
    if entries != [] {
      AdditionalIff(tree, entries[1..], contents, b);
    }
  }

  /** The config that the tree's .docz.yaml holds; the fetch reads it alike. */
  ghost predicate Configured(r: Readers, tree: seq<Entry>, cfg: Config) {
    exists sha :: Entry(CONFIG_FILE, true, sha) in tree
      && r.parse(r.contents(sha)) == Some(cfg) && Agree(r.hints(r.contents(sha)), cfg)
  }

  lemma ConfiguredFetch(r: Readers, head: string, branch: string, tree: seq<Entry>, cfg: Config)
    requires WellFormed(tree) && Configured(r, tree, cfg)
    ensures var f := Fetched(r, head, branch, tree);
      && f.Some? && r.parse(f.value.config) == Some(cfg)
      && f.value.blobs == Blobs(Classified(tree, cfg.dir, cfg.apiEnabled), r.contents)
           + if cfg.apiEnabled then Additional(tree, cfg.additionalDocs, r.contents) else []
  {
    var sha :| Entry(CONFIG_FILE, true, sha) in tree && r.parse(r.contents(sha)) == Some(cfg) && Agree(r.hints(r.contents(sha)), cfg);
    FindIffIn(tree, CONFIG_FILE, sha);
    hide Classified, Blobs, Additional, WellFormed, Find;
  }

  /** Of a tree exactly the files to take are fetched, each with its own content. */
  lemma FetchTakesExactly(r: Readers, head: string, branch: string, tree: seq<Entry>, cfg: Config, b: Blob)
    requires WellFormed(tree) && Configured(r, tree, cfg)
    ensures Fetched(r, head, branch, tree).Some?
    ensures b in Fetched(r, head, branch, tree).value.blobs <==> FileOf(r, tree, b.path, b.sha, b.content) && Taken(cfg, b.path)
  {
    ConfiguredFetch(r, head, branch, tree, cfg);
    var docs := Classified(tree, cfg.dir, cfg.apiEnabled);
    BlobsIff(docs, r.contents, b);
    AdditionalIff(tree, cfg.additionalDocs, r.contents, b);
    FindIffIn(tree, b.path, b.sha);
    ClassifiedIff(tree, cfg.dir, cfg.apiEnabled, Entry(b.path, true, b.sha));
    forall e | e in docs ensures e in tree && Wanted(e, cfg.dir, cfg.apiEnabled) {
      ClassifiedIff(tree, cfg.dir, cfg.apiEnabled, e);
    }
    hide Classified, Blobs, Additional, WellFormed, Find, Fetched, IsDoczFile, IsMarkdown, Configured;
  }

  // ---- documents ----

  /** Of the types whose directory is dir the last one declared. */
  ghost predicate TypeOf(types: seq<TypeDir>, dir: Path, name: string) {
    exists i :: 0 <= i < |types| && types[i] == TypeDir(name, dir) && forall j | i < j < |types| :: types[j].dir != dir
  }

  lemma {:induction false} TypeAtIff(types: seq<TypeDir>, dir: Path, name: string)
    ensures TypeAt(types, dir) == Some(name) <==> TypeOf(types, dir, name)
  {
    if types != [] {
      var n := |types| - 1;
      var front := types[..n];
      assert forall i | 0 <= i < n :: front[i] == types[i];
      TypeAtIff(front, dir, name);
      if types[n].dir != dir {
        if TypeOf(front, dir, name) {
          var i :| 0 <= i < n && front[i] == TypeDir(name, dir) && forall j | i < j < n :: front[j].dir != dir;
          assert types[i] == TypeDir(name, dir);
        }
        if TypeOf(types, dir, name) {
          var i :| 0 <= i < |types| && types[i] == TypeDir(name, dir) && forall j | i < j < |types| :: types[j].dir != dir;
          assert front[i] == TypeDir(name, dir);
        }
      }
    }
  }

  /** A file taken, directly in a type's directory, with frontmatter. */
  ghost predicate DocumentIn(r: Readers, cfg: Config, tree: seq<Entry>, d: Document) {
    && FileOf(r, tree, d.path, d.sha, d.content) && Taken(cfg, d.path)
    && TypeOf(cfg.types, Dir(d.path), d.typ)
    && d.front == r.front(d.content) && d.front.Front?
  }

  lemma {:induction false} DocumentsIff(r: Readers, cfg: Config, blobs: seq<Blob>, d: Document)
    requires Documents(r, cfg, blobs).Some?
    ensures d in Documents(r, cfg, blobs).value <==>
      Blob(d.path, d.sha, d.content) in blobs && d.path != [] && TypeAt(cfg.types, Dir(d.path)) == Some(d.typ)
      && d.front == r.front(d.content) && d.front.Front?
  {
    if blobs != [] {
      DocumentsIff(r, cfg, blobs[1..], d);
      var b := blobs[0];
      assert Documents(r, cfg, blobs).value == DocumentOf(r, cfg, b).value + Documents(r, cfg, blobs[1..]).value;
    }
  }

  lemma {:induction false} DocumentsFailIff(r: Readers, cfg: Config, blobs: seq<Blob>)
    ensures Documents(r, cfg, blobs).None? <==>
      exists b :: b in blobs && b.path != [] && TypeAt(cfg.types, Dir(b.path)).Some? && r.front(b.content).Malformed?
  {
    if blobs != [] {
      DocumentsFailIff(r, cfg, blobs[1..]);
      if exists b :: b in blobs && b.path != [] && TypeAt(cfg.types, Dir(b.path)).Some? && r.front(b.content).Malformed? {
        var b :| b in blobs && b.path != [] && TypeAt(cfg.types, Dir(b.path)).Some? && r.front(b.content).Malformed?;
        assert b == blobs[0] || b in blobs[1..];
      }
    }
  }

  /** The documents ingested are exactly those of the tree. */
  lemma TreeDocumentsAreIngested(r: Readers, head: string, branch: string, tree: seq<Entry>, cfg: Config, d: Document)
    requires WellFormed(tree) && Configured(r, tree, cfg) && Ingested(r, head, branch, tree).Some?
    ensures d in Ingested(r, head, branch, tree).value.documents <==> DocumentIn(r, cfg, tree, d)
  {
    ConfiguredFetch(r, head, branch, tree, cfg);
    var blobs := Fetched(r, head, branch, tree).value.blobs;
    DocumentsIff(r, cfg, blobs, d);
    FetchTakesExactly(r, head, branch, tree, cfg, Blob(d.path, d.sha, d.content));
    if d.path != [] {
      TypeAtIff(cfg.types, Dir(d.path), d.typ);
    }
    hide Fetched, Documents, TypeAt, TypeOf, Build, WellFormed, Configured, IsDoczFile;
  }

  /** A file taken, directly in a type's directory, whose frontmatter cannot be read. */
  ghost predicate Unreadable(r: Readers, cfg: Config, tree: seq<Entry>, b: Blob) {
    && FileOf(r, tree, b.path, b.sha, b.content) && Taken(cfg, b.path)
    && r.front(b.content).Malformed? && exists name :: TypeOf(cfg.types, Dir(b.path), name)
  }

  /** A tree with a config is ingested unless it has an unreadable document. */
  lemma IngestFailsIff(r: Readers, head: string, branch: string, tree: seq<Entry>, cfg: Config)
    requires WellFormed(tree) && Configured(r, tree, cfg)
    ensures Ingested(r, head, branch, tree).None? <==> exists b :: Unreadable(r, cfg, tree, b)
  {
    ConfiguredFetch(r, head, branch, tree, cfg);
    var blobs := Fetched(r, head, branch, tree).value.blobs;
    DocumentsFailIff(r, cfg, blobs);
    hide Fetched, Documents, TypeAt, TypeOf, Build, WellFormed, Configured, IsDoczFile;
    if Ingested(r, head, branch, tree).None? {
      var b :| b in blobs && b.path != [] && TypeAt(cfg.types, Dir(b.path)).Some? && r.front(b.content).Malformed?;
      FetchTakesExactly(r, head, branch, tree, cfg, b);
      TypeAtIff(cfg.types, Dir(b.path), TypeAt(cfg.types, Dir(b.path)).value);
      assert Unreadable(r, cfg, tree, b);
    }
    forall b | Unreadable(r, cfg, tree, b) ensures Ingested(r, head, branch, tree).None? {
      FetchTakesExactly(r, head, branch, tree, cfg, b);
      var name :| TypeOf(cfg.types, Dir(b.path), name);
      TypeAtIff(cfg.types, Dir(b.path), name);
    }
  }

  // ---- pages ----

  /** templates/ and what api.exclude names, at any depth. */
  predicate Hidden(cfg: Config, p: Path) {
    cfg.dir + ["templates"] <= p || exists i :: 0 <= i < |cfg.exclude| && cfg.dir + cfg.exclude[i] <= p
  }

  /** A file of docs_dir that is neither hidden nor in a type's directory. */
  predicate Open(cfg: Config, p: Path) {
    Inside(p, cfg.dir) && !Hidden(cfg, p) && forall i | 0 <= i < |cfg.types| :: !Inside(p, cfg.types[i].dir)
  }

  /** The directory has a README.md to be its page. */
  ghost predicate HasReadme(cfg: Config, tree: seq<Entry>, dir: Path) {
    Open(cfg, dir + ["README.md"]) && HasFile(tree, dir + ["README.md"])
  }

  /**
   Where a file of docs_dir is a page: a directory's README.md at the directory,
   its index.md there too when it has no README.md, and any other file, one of
   these directly in docs_dir included, at its own place.
  */
  ghost predicate PlacedAt(cfg: Config, tree: seq<Entry>, p: Path, at: Path) {
    && Open(cfg, p) && IsMarkdown(p) && p != cfg.landingPage && Valid(at)
    && (|| p == cfg.dir + at + ["README.md"]
        || (p == cfg.dir + at + ["index.md"] && !HasReadme(cfg, tree, cfg.dir + at))
        || (p == cfg.dir + at && !IsDirectoryPage(cfg, tree, at)))
  }

  ghost predicate IsDirectoryPage(cfg: Config, tree: seq<Entry>, rel: Path) {
    |rel| > 1 && (rel[|rel| - 1] == "README.md" || (rel[|rel| - 1] == "index.md" && !HasReadme(cfg, tree, cfg.dir + rel[..|rel| - 1])))
  }

  /** A page of the tree: a file of docs_dir where it is placed, or an additional document no such file has the place of. */
  ghost predicate PageIn(r: Readers, cfg: Config, tree: seq<Entry>, page: Page) {
    && cfg.apiEnabled && page.path != []
    && FileOf(r, tree, page.repoPath, page.sha, page.content)
    && page.title == r.title(page.content, page.path[|page.path| - 1])
    && (PlacedAt(cfg, tree, page.repoPath, page.path) || (page.repoPath == page.path && AlsoPublished(cfg, tree, page.path)))
  }

  ghost predicate AlsoPublished(cfg: Config, tree: seq<Entry>, entry: Path) {
    entry in cfg.additionalDocs && IsMarkdown(entry) && forall p | HasFile(tree, p) :: !PlacedAt(cfg, tree, p, entry)
  }

  lemma OpenIff(cfg: Config, p: Path)
    ensures Open(cfg, p) <==> Publishable(cfg, p)
  {
    if Inside(p, cfg.dir) {
      var prefixes := ExcludePrefixes(cfg);
      assert prefixes[0] == cfg.dir + [TEMPLATES_DIR];
      assert forall i | 0 <= i < |cfg.exclude| :: prefixes[i + 1] == cfg.dir + cfg.exclude[i];
      assert forall i | 0 < i < |prefixes| :: prefixes[i] == cfg.dir + cfg.exclude[i - 1];
    }
  }

  /** Blobs that are the tree's markdown files of docs_dir, others aside. */
  ghost predicate Carry(cfg: Config, tree: seq<Entry>, blobs: seq<Blob>) {
    forall p | Inside(p, cfg.dir) && IsMarkdown(p) :: HasFile(tree, p) <==> exists b :: b in blobs && b.path == p
  }

  lemma ReadmesIff(cfg: Config, tree: seq<Entry>, blobs: seq<Blob>, g: Path)
    requires Carry(cfg, tree, blobs) && g != []
    ensures g in ReadmeDirs(cfg, blobs) <==> HasReadme(cfg, tree, cfg.dir + g)
  {
    var q := cfg.dir + g + ["README.md"];
    OpenIff(cfg, q);
    assert Base(q) == "README.md";
    assert "README.md"[6..] == ".md";
    assert IsMarkdown(q);
    hide Publishable, Open, IsMarkdown;
    if g in ReadmeDirs(cfg, blobs) {
      var b :| b in blobs && Claims(cfg, b.path) && Dir(Rel(b.path, cfg.dir)) == g;
      assert b.path == cfg.dir + Rel(b.path, cfg.dir) && Rel(b.path, cfg.dir) == g + [Base(b.path)];
      assert b.path == q;
    }
    if HasReadme(cfg, tree, cfg.dir + g) {
      assert Inside(q, cfg.dir) by { hide Carry; assert Open(cfg, q); }
      var b :| b in blobs && b.path == q;
      assert Rel(q, cfg.dir) == g + ["README.md"] && Dir(Rel(q, cfg.dir)) == g;
      assert Claims(cfg, b.path);
    }
  }

  lemma InDirIff(p: Path, dir: Path, at: Path, name: string)
    requires Inside(p, dir)
    ensures p == dir + at <==> Rel(p, dir) == at
    ensures p == dir + at + [name] <==> Dir(Rel(p, dir)) == at && Base(p) == name
    ensures Base(Rel(p, dir)) == Base(p)
  {
    var rel := Rel(p, dir);
    assert p == dir + rel && rel == Dir(rel) + [Base(p)];
    assert (dir + at)[|dir|..] == at;
    assert dir + at + [name] == dir + (at + [name]);
    if p == dir + (at + [name]) {
      assert rel == at + [name];
    }
  }

  lemma PublishedIff(cfg: Config, tree: seq<Entry>, blobs: seq<Blob>, p: Path, at: Path)
    requires Carry(cfg, tree, blobs)
    ensures Published(cfg, ReadmeDirs(cfg, blobs), p) == Some(at) && Valid(at) <==> PlacedAt(cfg, tree, p, at)
  {
    OpenIff(cfg, p);
    if Open(cfg, p) {
      InDirIff(p, cfg.dir, at, "README.md");
      InDirIff(p, cfg.dir, at, "index.md");
      if |Rel(p, cfg.dir)| > 1 {
        ReadmesIff(cfg, tree, blobs, Dir(Rel(p, cfg.dir)));
      }
    }
    hide Publishable, Open, HasReadme, ReadmeDirs, Carry, IsMarkdown;
  }

  // ---- the rows ----

  lemma {:induction false} DocsPagesIff(r: Readers, cfg: Config, readmes: set<Path>, blobs: seq<Blob>, page: Page)
    ensures page in DocsPages(r, cfg, readmes, blobs) <==>
      exists b :: b in blobs && Published(cfg, readmes, b.path) == Some(page.path) && Valid(page.path) && page == Row(r, b, page.path)
  {
    hide Published, Valid;
    if blobs != [] {
      DocsPagesIff(r, cfg, readmes, blobs[1..], page);
      var first := blobs[0];
      assert page in PageOf(r, cfg, readmes, first) <==>
        Published(cfg, readmes, first.path) == Some(page.path) && Valid(page.path) && page == Row(r, first, page.path);
      if exists b :: b in blobs && Published(cfg, readmes, b.path) == Some(page.path) && Valid(page.path) && page == Row(r, b, page.path) {
        var b :| b in blobs && Published(cfg, readmes, b.path) == Some(page.path) && Valid(page.path) && page == Row(r, b, page.path);
        assert b == first || b in blobs[1..];
      }
    }
  }

  lemma {:induction false} ExtraPagesIff(r: Readers, docs: seq<Page>, blobs: seq<Blob>, entries: seq<Path>, page: Page)
    ensures page in ExtraPages(r, docs, blobs, entries) <==>
      page.path in entries && IsMarkdown(page.path) && !Takes(docs, page.path)
      && BlobAt(blobs, page.path).Some? && page == Row(r, BlobAt(blobs, page.path).value, page.path)
  {
    hide IsMarkdown, Takes, BlobAt;
    if entries != [] {
      ExtraPagesIff(r, docs, blobs, entries[1..], page);
    }
  }

  lemma FetchCarries(r: Readers, head: string, branch: string, tree: seq<Entry>, cfg: Config)
    requires WellFormed(tree) && Configured(r, tree, cfg) && cfg.apiEnabled
    ensures Fetched(r, head, branch, tree).Some? && Carry(cfg, tree, Fetched(r, head, branch, tree).value.blobs)
  {
    hide Fetched, WellFormed, Configured, IsMarkdown;
    FetchTakesExactly(r, head, branch, tree, cfg, Blob([], "", ""));
    var blobs := Fetched(r, head, branch, tree).value.blobs;
    forall p | Inside(p, cfg.dir) && IsMarkdown(p) ensures HasFile(tree, p) <==> exists b :: b in blobs && b.path == p {
      if HasFile(tree, p) {
        var sha :| Entry(p, true, sha) in tree;
        FetchTakesExactly(r, head, branch, tree, cfg, Blob(p, sha, r.contents(sha)));
      }
      forall b | b in blobs && b.path == p ensures HasFile(tree, p) {
        FetchTakesExactly(r, head, branch, tree, cfg, b);
      }
    }
  }

  /** The blobs fetched of a tree, told from the tree. */
  ghost predicate Faithful(r: Readers, cfg: Config, tree: seq<Entry>, blobs: seq<Blob>) {
    && Carry(cfg, tree, blobs)
    && (forall b :: b in blobs <==> FileOf(r, tree, b.path, b.sha, b.content) && Taken(cfg, b.path))
    && (forall b, c | b in blobs && c in blobs && b.path == c.path :: b == c)
  }

  lemma FetchIsFaithful(r: Readers, head: string, branch: string, tree: seq<Entry>, cfg: Config)
    requires WellFormed(tree) && Configured(r, tree, cfg) && cfg.apiEnabled
    ensures Fetched(r, head, branch, tree).Some? && Faithful(r, cfg, tree, Fetched(r, head, branch, tree).value.blobs)
  {
    FetchCarries(r, head, branch, tree, cfg);
    var blobs := Fetched(r, head, branch, tree).value.blobs;
    forall b ensures b in blobs <==> FileOf(r, tree, b.path, b.sha, b.content) && Taken(cfg, b.path) {
      FetchTakesExactly(r, head, branch, tree, cfg, b);
    }
    forall b, c | b in blobs && c in blobs && b.path == c.path ensures b == c {
      FindIffIn(tree, b.path, b.sha);
      FindIffIn(tree, c.path, c.sha);
    }
    hide Fetched, WellFormed, Configured, Taken;
  }

  /** What docs_dir publishes. */
  ghost predicate DocsPageIn(r: Readers, cfg: Config, tree: seq<Entry>, page: Page) {
    && page.path != []
    && FileOf(r, tree, page.repoPath, page.sha, page.content)
    && page.title == r.title(page.content, page.path[|page.path| - 1])
    && PlacedAt(cfg, tree, page.repoPath, page.path)
  }

  lemma DocsPageIff(r: Readers, cfg: Config, tree: seq<Entry>, blobs: seq<Blob>, page: Page)
    requires cfg.apiEnabled && Faithful(r, cfg, tree, blobs)
    ensures page in DocsPages(r, cfg, ReadmeDirs(cfg, blobs), blobs) <==> DocsPageIn(r, cfg, tree, page)
  {
    var b := Blob(page.repoPath, page.sha, page.content);
    DocsPagesIff(r, cfg, ReadmeDirs(cfg, blobs), blobs, page);
    PublishedIff(cfg, tree, blobs, page.repoPath, page.path);
    hide Published, Carry, Valid, HasReadme, IsDirectoryPage, ReadmeDirs, IsMarkdown, Hidden;
    if DocsPageIn(r, cfg, tree, page) {
      assert Taken(cfg, b.path) && b in blobs;
      assert page == Row(r, b, page.path);
    }
  }

  lemma TakenIff(r: Readers, cfg: Config, tree: seq<Entry>, blobs: seq<Blob>, at: Path)
    requires cfg.apiEnabled && Faithful(r, cfg, tree, blobs) && at != []
    ensures Takes(DocsPages(r, cfg, ReadmeDirs(cfg, blobs), blobs), at) <==> exists p :: HasFile(tree, p) && PlacedAt(cfg, tree, p, at)
  {
    hide Faithful, PlacedAt, ReadmeDirs;
    var docs := DocsPages(r, cfg, ReadmeDirs(cfg, blobs), blobs);
    if Takes(docs, at) {
      var i :| 0 <= i < |docs| && docs[i].path == at;
      DocsPageIff(r, cfg, tree, blobs, docs[i]);
    }
    forall p | HasFile(tree, p) && PlacedAt(cfg, tree, p, at) ensures Takes(docs, at) {
      var sha :| Entry(p, true, sha) in tree;
      var content := r.contents(sha);
      var page := Page(at, p, r.title(content, at[|at| - 1]), sha, content);
      DocsPageIff(r, cfg, tree, blobs, page);
      var i :| 0 <= i < |docs| && docs[i] == page;
    }
  }

  /** What additional_docs publishes. */
  ghost predicate ExtraPageIn(r: Readers, cfg: Config, tree: seq<Entry>, page: Page) {
    && page.path != [] && page.repoPath == page.path
    && FileOf(r, tree, page.repoPath, page.sha, page.content)
    && page.title == r.title(page.content, page.path[|page.path| - 1])
    && AlsoPublished(cfg, tree, page.path)
  }

  lemma BlobAtIff(r: Readers, cfg: Config, tree: seq<Entry>, blobs: seq<Blob>, b: Blob)
    requires cfg.apiEnabled && Faithful(r, cfg, tree, blobs) && b.path in cfg.additionalDocs && IsMarkdown(b.path)
    ensures BlobAt(blobs, b.path) == Some(b) <==> FileOf(r, tree, b.path, b.sha, b.content)
  {
    BlobAtIsIn(blobs, b.path);
    assert b in blobs <==> FileOf(r, tree, b.path, b.sha, b.content) && Taken(cfg, b.path);
    hide Carry, BlobAt, FileOf, IsDoczFile;
  }

  lemma ExtraPageIff(r: Readers, cfg: Config, tree: seq<Entry>, blobs: seq<Blob>, page: Page)
    requires cfg.apiEnabled && Faithful(r, cfg, tree, blobs)
    ensures page in ExtraPages(r, DocsPages(r, cfg, ReadmeDirs(cfg, blobs), blobs), blobs, cfg.additionalDocs) <==>
      ExtraPageIn(r, cfg, tree, page)
  {
    hide Faithful, PlacedAt, ReadmeDirs, BlobAt, DocsPages, ExtraPages, Takes, FileOf;
    ExtraPagesIff(r, DocsPages(r, cfg, ReadmeDirs(cfg, blobs), blobs), blobs, cfg.additionalDocs, page);
    if page.path in cfg.additionalDocs && IsMarkdown(page.path) {
      TakenIff(r, cfg, tree, blobs, page.path);
      BlobAtIsIn(blobs, page.path);
      BlobAtIff(r, cfg, tree, blobs, Blob(page.path, page.sha, page.content));
    }
    hide IsMarkdown;
  }

  lemma PageIff(r: Readers, cfg: Config, tree: seq<Entry>, blobs: seq<Blob>, page: Page)
    requires cfg.apiEnabled && Faithful(r, cfg, tree, blobs)
    ensures page in Build(r, cfg, blobs) <==> PageIn(r, cfg, tree, page)
  {
    hide Faithful, PlacedAt, ReadmeDirs, AlsoPublished, DocsPages, ExtraPages, FileOf;
    DocsPageIff(r, cfg, tree, blobs, page);
    ExtraPageIff(r, cfg, tree, blobs, page);
  }

  /**
   The pages ingested of a tree are exactly its pages: nothing is missing,
   nothing is elsewhere, and each has its own file's content.
  */
  lemma TreePagesAreIngested(r: Readers, head: string, branch: string, tree: seq<Entry>, cfg: Config, page: Page)
    requires WellFormed(tree) && Configured(r, tree, cfg) && Ingested(r, head, branch, tree).Some?
    ensures page in Ingested(r, head, branch, tree).value.pages <==> PageIn(r, cfg, tree, page)
  {
    ConfiguredFetch(r, head, branch, tree, cfg);
    if cfg.apiEnabled {
      FetchIsFaithful(r, head, branch, tree, cfg);
      PageIff(r, cfg, tree, Fetched(r, head, branch, tree).value.blobs, page);
    }
    hide Fetched, WellFormed, Configured, Faithful, Documents;
  }

  // ---- the rest ----

  /** The file the repository's home is read from. */
  function HomeFile(cfg: Config): Path {
    if cfg.apiEnabled then cfg.landingPage else cfg.dir + ["index.md"]
  }

  ghost predicate IsFileAt(r: Readers, tree: seq<Entry>, p: Path, found: Option<File>) {
    if found.Some? then FileOf(r, tree, p, found.value.sha, found.value.content) else !HasFile(tree, p)
  }

  lemma LoadIsFileAt(r: Readers, tree: seq<Entry>, p: Path)
    requires WellFormed(tree)
    ensures IsFileAt(r, tree, p, Load(tree, p, r.contents))
  {
    forall sha ensures Find(tree, p) == Some(sha) <==> Entry(p, true, sha) in tree {
      FindIffIn(tree, p, sha);
    }
  }

  /** The commit, the branch and the config are the tree's, and so are the changelog where it is asked for and the home. */
  lemma TreeFilesAreIngested(r: Readers, head: string, branch: string, tree: seq<Entry>, cfg: Config)
    requires WellFormed(tree) && Configured(r, tree, cfg) && Ingested(r, head, branch, tree).Some?
    ensures var input := Ingested(r, head, branch, tree).value;
      && input.headSHA == head && input.branch == branch && input.config == cfg
      && (if cfg.changelogEnabled then IsFileAt(r, tree, cfg.changelogFile, input.changelog) else input.changelog.None?)
      && IsFileAt(r, tree, HomeFile(cfg), input.index)
  {
    var sha :| Entry(CONFIG_FILE, true, sha) in tree && r.parse(r.contents(sha)) == Some(cfg) && Agree(r.hints(r.contents(sha)), cfg);
    FindIffIn(tree, CONFIG_FILE, sha);
    LoadIsFileAt(r, tree, cfg.changelogFile);
    LoadIsFileAt(r, tree, HomeFile(cfg));
    hide Classified, Blobs, Additional, WellFormed, Find, Documents, Build, IsFileAt;
  }

  /** A tree without a .docz.yaml, or with one that does not parse, is not ingested. */
  lemma UnconfiguredFails(r: Readers, head: string, branch: string, tree: seq<Entry>)
    requires WellFormed(tree)
    requires forall sha | Entry(CONFIG_FILE, true, sha) in tree :: r.parse(r.contents(sha)).None?
    ensures Ingested(r, head, branch, tree).None?
  {
    if Find(tree, CONFIG_FILE).Some? {
      FindIffIn(tree, CONFIG_FILE, Find(tree, CONFIG_FILE).value);
    }
    hide Classified, Blobs, Additional, WellFormed, Find, Documents, Build;
  }
}
