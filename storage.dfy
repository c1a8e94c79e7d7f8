/** The storage directory as the admin and project-file tools see it: which
    paths exist below the root, the directories the tools create, and the
    project metadata files they write. Directory walks (`rglob`) are given to
    the tools as sequences of probes in the order the operating system yields them. */
module Storage {
  import opened Wrappers

  /** Path segments below the storage root; `[]` is the root itself. */
  type Path = seq<string>

  /** What `stat()` reports: size in bytes, and the modification time in whole
      microseconds since the Unix epoch (UTC), the resolution to which
      `datetime.fromtimestamp(st_mtime)` rounds it. */
  datatype Stat = Stat(size: int, mtime: int)

  /** One entry of a directory walk: whether it is a regular file, its name,
      its path relative to the project directory, its full path text, and its
      `stat()` result (`None` when `stat()` raised `OSError`). */
  datatype Probe = Probe(isFile: bool, name: string, relativePath: string, path: string, stat: Option<Stat>)

  /** The content of a project's `.project.json`. */
  datatype ProjectMetadata = ProjectMetadata(project: string, createdAt: int, subdirectories: seq<string>)

  /** `str(root / a / b ...)`. */
  function PathText(root: string, p: Path): string
    decreases |p|
  {
    if p == [] then root else PathText(root, p[..|p| - 1]) + "/" + p[|p| - 1]
  }

  class Volume {
    /** The root directory, as text. */
    var root: string
    /** Every path that exists below (and including) the root. */
    var entries: set<Path>
    /** The directories `mkdir` was called on, in call order. */
    var mkdirs: seq<Path>
    /** The metadata files written, by path. */
    var metadata: map<Path, ProjectMetadata>

    constructor (root: string, entries: set<Path>)
      ensures this.root == root && this.entries == entries
      ensures mkdirs == [] && metadata == map[]
    {
      this.root := root;
      this.entries := entries;
      mkdirs := [];
      metadata := map[];
    }

    predicate Exists(p: Path)
      reads this
    {
      p in entries
    }

    /** `mkdir(parents=True, exist_ok=True)` on `p`: `p` and all its ancestors exist afterwards. */
    method Mkdir(p: Path)
      modifies this
      ensures entries == old(entries) + set k | 0 <= k <= |p| :: p[..k]
      ensures mkdirs == old(mkdirs) + [p]
      ensures root == old(root) && metadata == old(metadata)
    {
      entries := entries + set k | 0 <= k <= |p| :: p[..k];
      mkdirs := mkdirs + [p];
    }

    /** Writes a metadata file at `p`. */
    method WriteMetadata(p: Path, md: ProjectMetadata)
      modifies this
      ensures entries == old(entries) + {p}
      ensures metadata == old(metadata)[p := md]
      ensures root == old(root) && mkdirs == old(mkdirs)
    {
      entries := entries + {p};
      metadata := metadata[p := md];
    }
  }

  /** A character of the class `[A-Za-z0-9_-]`. */
  predicate NameChar(c: char) {
    ('A' <= c <= 'Z') || ('a' <= c <= 'z') || ('0' <= c <= '9') || c == '_' || c == '-'
  }

  /** `VALID_PROJECT_NAME.fullmatch(s)` for the pattern `^[A-Za-z0-9_-]+$`, which the
      admin and project-file tools both declare: one class character, then the rest
      matched the same way. */
  predicate MatchesProjectName(s: string)
    decreases |s|
  {
    |s| > 0 && NameChar(s[0]) && (|s| == 1 || MatchesProjectName(s[1..]))
  }

  /** Whether a walked entry is a file whose `stat()` succeeded. */
  predicate Stated(p: Probe) {
    p.isFile && p.stat.Some?
  }

  /** How many walked entries are stat-ed files. */
  function StatedCount(items: seq<Probe>): nat {
    if items == [] then 0
    else StatedCount(items[..|items| - 1]) + (if Stated(items[|items| - 1]) then 1 else 0)
  }

}
