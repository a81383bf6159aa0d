/** A repository working tree as `os.walk` enumerates it. */
module RepoTree {
  import opened Outcomes

  /**
   * One file reported by `os.walk`: the directory components below the repository
   * root, the file name, and the text it reads as (None when opening or reading
   * it raises an OSError).
   */
  datatype WalkEntry = WalkEntry(dir: seq<string>, name: string, content: Option<string>)

  /** `(repo_path / 'Dockerfile').exists()`: a file named Dockerfile at the root. */
  predicate HasDockerfile(entries: seq<WalkEntry>) {
    exists i :: 0 <= i < |entries| && entries[i].dir == [] && entries[i].name == "Dockerfile"
  }
}
