/** What ingest reads of a repository and what it hands to the store. */
module Repo {
  import opened Wrappers
  import opened Paths

  /** An entry of git's recursive tree: a file (blob) or something else. */
  datatype Entry = Entry(path: Path, isBlob: bool, sha: string)

  datatype Blob = Blob(path: Path, sha: string, content: string)

  datatype File = File(sha: string, content: string)

  datatype TypeDir = TypeDir(name: string, dir: Path)

  /**
   A parsed and validated .docz.yaml. docsDir is docs_dir as written, dir its
   cleaned form; type directories are resolved against it.
  */
  datatype Config = Config(
    docsDir: string, dir: Path, types: seq<TypeDir>,
    changelogEnabled: bool, changelogFile: Path,
    apiEnabled: bool, landingPage: Path, exclude: seq<Path>, additionalDocs: seq<Path>,
    rest: string)

  /** What the fetch reads of the same bytes before they are validated. */
  datatype Hints = Hints(
    dir: Path, changelogEnabled: bool, changelogFile: Path,
    apiEnabled: bool, landingPage: Option<Path>, additionalDocs: seq<Path>)

  datatype Front =
    | NoFrontmatter
    | Malformed
    | Front(id: string, title: string, status: string, author: string, created: string)

  /** The readers this model leaves uninterpreted: git's objects, YAML, markdown. */
  datatype Readers = Readers(
    contents: string -> string,
    hints: string -> Hints,
    parse: string -> Option<Config>,
    front: string -> Front,
    title: (string, string) -> string)

  datatype Snapshot = Snapshot(
    headSHA: string, branch: string, config: string,
    changelog: Option<File>, index: Option<File>, blobs: seq<Blob>)

  datatype Document = Document(typ: string, front: Front, path: Path, sha: string, content: string)

  /** A page row: path is where it is published, repoPath where it comes from. */
  datatype Page = Page(path: Path, repoPath: Path, title: string, sha: string, content: string)

  /** store.ReconcileInput; config stands for all it holds that only the config decides. */
  datatype Input = Input(
    headSHA: string, branch: string, config: Config,
    changelog: Option<File>, changelogFile: Option<Path>, index: Option<File>,
    landing: Option<Path>, additionalDocs: seq<Path>,
    documents: seq<Document>, pages: seq<Page>)

  const CONFIG_FILE: Path := [".docz.yaml"]
  const INDEX_NAME := "index.md"
  const README_NAME := "README.md"
  const TEMPLATES_DIR := "templates"

  predicate IsMarkdown(p: Path) {
    p != [] && HasSuffix(Base(p), ".md")
  }

  predicate Digits(s: string) {
    s != "" && forall i | 0 <= i < |s| :: '0' <= s[i] <= '9'
  }

  /** document.IsDoczFile: digits, a hyphen, anything on one line, ".md". */
  predicate IsDoczFile(name: string) {
    HasSuffix(name, ".md") && '\n' !in name
    && exists i :: 0 < i < |name| - 3 && name[i] == '-' && Digits(name[..i])
  }

  /** No two entries name one path, and no file is a directory of another. */
  ghost predicate WellFormed(tree: seq<Entry>) {
    && (forall i | 0 <= i < |tree| :: Clean(tree[i].path))
    && (forall i, j | 0 <= i < |tree| && 0 <= j < |tree| && tree[i].path == tree[j].path :: i == j)
    && (forall i, j | 0 <= i < |tree| && 0 <= j < |tree| && tree[i].isBlob :: !Under(tree[j].path, tree[i].path))
  }

  /** The hints of a config that parses agree with it wherever the fetch uses them. */
  predicate Agree(h: Hints, cfg: Config) {
    && h.dir == cfg.dir
    && h.changelogEnabled == cfg.changelogEnabled && (cfg.changelogEnabled ==> h.changelogFile == cfg.changelogFile)
    && h.apiEnabled == cfg.apiEnabled
    && (cfg.apiEnabled ==> LandingPath(h) == cfg.landingPage && h.additionalDocs == cfg.additionalDocs)
  }

  /** landingPath: the file the repo home is read from. */
  function LandingPath(h: Hints): Path {
    if h.apiEnabled && h.landingPage.Some? then h.landingPage.value else h.dir + [INDEX_NAME]
  }
}
