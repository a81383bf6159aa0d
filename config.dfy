/**
 * ConfigParser's pure part: the default configuration, the recursive merge of a
 * parsed document into it, the search for a configuration file, and the value
 * `parse` returns.
 */
module Config {
  import opened Outcomes
  import opened Values
  import opened Paths

  /** DEFAULT_CONFIG, section by section. */
  const DefaultPipeline: map<string, Value> := map["name" := Str("CI/CD Pipeline"), "triggers" := List([Str("push"), Str("pull_request")])]
  const DefaultSecurity: map<string, Value> := map["trivy_enabled" := Bool(true), "snyk_enabled" := Bool(false), "sast_enabled" := Bool(true)]
  const DefaultRuntime: map<string, Value> := map["python_version" := Str("3.9"), "node_version" := Str("16")]

  /** DEFAULT_CONFIG's four nested dictionaries, by key. */
  const DefaultSections: map<string, map<string, Value>> :=
    map["pipeline" := DefaultPipeline, "security" := DefaultSecurity, "runtime" := DefaultRuntime, "notifications" := map[]]

  /** DEFAULT_CONFIG: each section as a dictionary under its key. */
  const DefaultConfig: map<string, Value> := map k | k in DefaultSections :: Dict(DefaultSections[k])

  // ---------------------------------------------------------------------------
  // `_deep_merge`, on values

  /**
   * The dictionary `_deep_merge(base, override)` leaves in `base`: a key present
   * on both sides with a dictionary on both sides is merged recursively, any
   * other key of `override` replaces `base`'s value wholesale.
   */
  function Merge(base: map<string, Value>, ov: map<string, Value>): map<string, Value>
    decreases Dict(ov), 1
  {
    map k | k in base.Keys + ov.Keys :: if k in ov then MergedEntry(base, ov, k) else base[k]
  }

  /** The value the merge leaves at a key of the override. */
  function MergedEntry(base: map<string, Value>, ov: map<string, Value>, k: string): Value
    requires k in ov
    decreases Dict(ov), 0
  {
    assert ov[k] in ov.Values;
    if k in base && base[k].Dict? && ov[k].Dict? then Dict(Merge(base[k].fields, ov[k].fields)) else ov[k]
  }

  /** A dictionary with the merge's keys and the merge's value at each of them is the merge. */
  lemma MergeByKeys(base: map<string, Value>, ov: map<string, Value>, m: map<string, Value>)
    requires forall k :: k in m <==> k in base || k in ov
    requires forall k :: k in ov ==> m[k] == MergedEntry(base, ov, k)
    requires forall k :: k in base && k !in ov ==> m[k] == base[k]
    ensures m == Merge(base, ov)
  {
  }

  /** After the merge, `base` holds its own keys and every key of the override. */
  lemma MergeKeys(base: map<string, Value>, ov: map<string, Value>)
    ensures Merge(base, ov).Keys == base.Keys + ov.Keys
  {
  }

  /** A key the override does not mention keeps its value. */
  lemma MergeKeepsBase(base: map<string, Value>, ov: map<string, Value>, k: string)
    requires k in base && k !in ov
    ensures Merge(base, ov)[k] == base[k]
  {
  }

  /** Unless both sides are dictionaries, the override's value replaces the base's: lists are not appended, a dictionary can become a scalar. */
  lemma MergeReplaces(base: map<string, Value>, ov: map<string, Value>, k: string)
    requires k in ov && !(k in base && base[k].Dict? && ov[k].Dict?)
    ensures Merge(base, ov)[k] == ov[k]
  {
  }

  /** An empty override leaves the base as it is. */
  lemma MergeEmpty(base: map<string, Value>)
    ensures Merge(base, map[]) == base
  {
  }

  /** Merging into nothing yields the override. */
  lemma MergeIntoEmpty(ov: map<string, Value>)
    ensures Merge(map[], ov) == ov
  {
  }

  /** Merging a dictionary into itself changes nothing. */
  lemma {:induction false} MergeSelf(m: map<string, Value>)
    ensures Merge(m, m) == m
    decreases Dict(m)
  {
    forall k | k in m ensures Merge(m, m)[k] == m[k] {
      assert m[k] in m.Values;
      if m[k].Dict? {
        MergeSelf(m[k].fields);
      }
    }
  }

  /** Merging the same override twice is the same as merging it once. */
  lemma {:induction false} MergeIdempotent(base: map<string, Value>, ov: map<string, Value>)
    ensures Merge(Merge(base, ov), ov) == Merge(base, ov)
    decreases Dict(ov)
  {
    var m := Merge(base, ov);
    forall k | k in m ensures Merge(m, ov)[k] == m[k] {
      if k in ov {
        assert ov[k] in ov.Values;
        if k in base && base[k].Dict? && ov[k].Dict? {
          MergeIdempotent(base[k].fields, ov[k].fields);
        } else if ov[k].Dict? {
          MergeSelf(ov[k].fields);
        }
      }
    }
  }

  /** The value at a key path through nested dictionaries, if there is one. */
  function At(m: map<string, Value>, path: seq<string>): Option<Value>
    decreases |path|
  {
    if path == [] || path[0] !in m then None
    else if |path| == 1 then Some(m[path[0]])
    else if m[path[0]].Dict? then At(m[path[0]].fields, path[1..])
    else None
  }

  /** The override neither mentions `path` nor replaces any dictionary on the way to it. */
  predicate Untouched(ov: map<string, Value>, path: seq<string>)
    decreases |path|
  {
    path != [] &&
    (path[0] !in ov || (|path| > 1 && ov[path[0]].Dict? && Untouched(ov[path[0]].fields, path[1..])))
  }

  /** A nested value the override does not reach survives the merge: overriding `pipeline.name` keeps `pipeline.triggers`. */
  lemma {:induction false} MergeKeepsUntouched(base: map<string, Value>, ov: map<string, Value>, path: seq<string>)
    requires At(base, path).Some? && Untouched(ov, path)
    ensures At(Merge(base, ov), path) == At(base, path)
    decreases |path|
  {
    var k := path[0];
    if k in ov {
      MergeKeepsUntouched(base[k].fields, ov[k].fields, path[1..]);
    }
  }

  /** Every non-dictionary value of the override ends up at its path in the result. */
  lemma {:induction false} MergeOverrideLeaf(base: map<string, Value>, ov: map<string, Value>, path: seq<string>)
    requires At(ov, path).Some? && !At(ov, path).value.Dict?
    ensures At(Merge(base, ov), path) == At(ov, path)
    decreases |path|
  {
    var k := path[0];
    if |path| > 1 && k in base && base[k].Dict? {
      MergeOverrideLeaf(base[k].fields, ov[k].fields, path[1..]);
    }
  }

  /** Overriding only the pipeline's name keeps the default triggers. */
  lemma MergeDefaultsExample()
    ensures var m := Merge(DefaultConfig, map["pipeline" := Dict(map["name" := Str("My Pipeline")])]);
      At(m, ["pipeline", "name"]) == Some(Str("My Pipeline")) &&
      At(m, ["pipeline", "triggers"]) == Some(List([Str("push"), Str("pull_request")])) &&
      m.Keys == DefaultConfig.Keys
  {
    var ov := map["pipeline" := Dict(map["name" := Str("My Pipeline")])];
    MergeOverrideLeaf(DefaultConfig, ov, ["pipeline", "name"]);
    MergeKeepsUntouched(DefaultConfig, ov, ["pipeline", "triggers"]);
  }

  // ---------------------------------------------------------------------------
  // `_find_config_file`

  /** The names looked for in the repository, in order. */
  const ConfigNames: seq<string> := ["pipeline-config.yml", "pipeline-config.yaml", ".pipeline.yml", "ci-config.yml"]

  /** The first of `names`, joined to `repo`, that exists. */
  function FirstExisting(repo: string, names: seq<string>, existing: set<string>): Option<string>
    decreases |names|
  {
    if names == [] then None
    else if Join(repo, names[0]) in existing then Some(Join(repo, names[0]))
    else FirstExisting(repo, names[1..], existing)
  }

  /** `Some(p)` exactly when `p` is the earliest existing candidate; `None` exactly when none exists. */
  lemma {:induction false} FirstExistingIsFirst(repo: string, names: seq<string>, existing: set<string>)
    ensures FirstExisting(repo, names, existing).None? <==> forall i :: 0 <= i < |names| ==> Join(repo, names[i]) !in existing
    ensures FirstExisting(repo, names, existing).Some? ==>
      exists i :: 0 <= i < |names| && FirstExisting(repo, names, existing).value == Join(repo, names[i])
        && Join(repo, names[i]) in existing
        && forall j :: 0 <= j < i ==> Join(repo, names[j]) !in existing
    decreases |names|
  {
    if names != [] && Join(repo, names[0]) !in existing {
      FirstExistingIsFirst(repo, names[1..], existing);
      if FirstExisting(repo, names[1..], existing).Some? {
        var i :| 0 <= i < |names[1..]| && FirstExisting(repo, names[1..], existing).value == Join(repo, names[1..][i])
          && Join(repo, names[1..][i]) in existing
          && forall j :: 0 <= j < i ==> Join(repo, names[1..][j]) !in existing;
        assert forall j :: 0 <= j < i + 1 ==> Join(repo, names[j]) !in existing by {
          forall j | 0 <= j < i + 1 ensures Join(repo, names[j]) !in existing {
            if j > 0 { assert names[j] == names[1..][j - 1]; }
          }
        }
      } else {
        assert forall i :: 0 <= i < |names| ==> Join(repo, names[i]) !in existing by {
          forall i | 0 <= i < |names| ensures Join(repo, names[i]) !in existing {
            if i > 0 { assert names[i] == names[1..][i - 1]; }
          }
        }
      }
    }
  }

  /** The path `_find_config_file` returns: a non-empty explicit file as `Path` prints it, otherwise the first existing default name. */
  function ConfigCandidate(repo: string, configFile: Option<string>, existing: set<string>): Option<string> {
    if configFile.Some? && configFile.value != "" then Some(PathStr(configFile.value))
    else FirstExisting(repo, ConfigNames, existing)
  }

  /** An explicit file is used whether or not it exists; without one, only an existing default name is returned. */
  lemma CandidateChoice(repo: string, configFile: Option<string>, existing: set<string>)
    ensures configFile.Some? && configFile.value != "" ==> ConfigCandidate(repo, configFile, existing) == Some(PathStr(configFile.value))
    ensures (configFile.None? || configFile == Some("")) && ConfigCandidate(repo, configFile, existing).Some? ==>
      ConfigCandidate(repo, configFile, existing).value in existing
    ensures (configFile.None? || configFile == Some("")) && Join(repo, "pipeline-config.yml") in existing ==>
      ConfigCandidate(repo, configFile, existing) == Some(Join(repo, "pipeline-config.yml"))
  {
    FirstExistingIsFirst(repo, ConfigNames, existing);
  }

  // ---------------------------------------------------------------------------
  // `parse` and `_load_config`, on values

  /** What reading a file yields: an exception from `open` or `yaml.safe_load`, or the parsed document. */
  datatype Document = Unreadable | Parsed(doc: Value)

  /** The files that exist, each with what reading it yields. */
  type Files = map<string, Document>

  /**
   * `_load_config` with the defaults `defaults`: an unreadable file, a falsy
   * document, or a truthy document that is not a dictionary (its `.items()`
   * raising AttributeError) all give the defaults.
   */
  function Loaded(defaults: map<string, Value>, d: Document): map<string, Value> {
    match d
    case Unreadable => defaults
    case Parsed(v) => if Truthy(v) && v.Dict? then Merge(defaults, v.fields) else defaults
  }

  /** `parse` with the defaults `defaults`. */
  function Parse(defaults: map<string, Value>, repo: string, configFile: Option<string>, files: Files): map<string, Value> {
    var p := ConfigCandidate(repo, configFile, files.Keys);
    if p.Some? && p.value in files then Loaded(defaults, files[p.value]) else defaults
  }

  /** The defaults are returned when no file applies, when it cannot be read, and when its document is empty or not a mapping. */
  lemma ParseFallsBack(defaults: map<string, Value>, repo: string, configFile: Option<string>, files: Files)
    ensures var p := ConfigCandidate(repo, configFile, files.Keys);
      (p.None? || p.value !in files || files[p.value].Unreadable?
        || !Truthy(files[p.value].doc) || !files[p.value].doc.Dict?) ==>
      Parse(defaults, repo, configFile, files) == defaults
    ensures files == map[] && (configFile.None? || configFile == Some("")) ==> Parse(defaults, repo, configFile, files) == defaults
  {
    FirstExistingIsFirst(repo, ConfigNames, files.Keys);
  }

  /** A readable mapping overrides the defaults key by key, and the result keeps every default key. */
  lemma ParseMerges(defaults: map<string, Value>, repo: string, configFile: Option<string>, files: Files)
    requires var p := ConfigCandidate(repo, configFile, files.Keys);
      p.Some? && p.value in files && files[p.value].Parsed? && files[p.value].doc.Dict?
    ensures var d := files[ConfigCandidate(repo, configFile, files.Keys).value].doc;
      Parse(defaults, repo, configFile, files) == Merge(defaults, d.fields)
      && defaults.Keys <= Parse(defaults, repo, configFile, files).Keys
  {
    var d := files[ConfigCandidate(repo, configFile, files.Keys).value].doc;
    if d.fields == map[] {
      MergeEmpty(defaults);
    }
  }
}
