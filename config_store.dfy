/**
 * ConfigParser with the objects it shares. DEFAULT_CONFIG is a class attribute:
 * one dictionary whose four nested dictionaries (its "sections") are single
 * Python objects. `dict.copy()` copies only the top level, so every copy made by
 * `parse` and `_load_config` holds the very same section objects, and
 * `_deep_merge` writes into them.
 *
 * DEFAULT_CONFIG's top level is never written, so a section is named by its key:
 * a slot `Shared` under key `k` of a copy is DEFAULT_CONFIG's section `k`.
 * Dictionaries below a section are modelled as values: updating one in place is
 * taken to be replacing it by its merged value. That holds when each is reachable
 * through one slot only, which a YAML anchor and its aliases (one object under
 * several keys) break; such sharing is not modelled.
 */
module ConfigStore {
  import opened Outcomes
  import opened Values
  import opened Paths
  import opened Config

  /** The configuration a set of sections stands for. */
  function AsConfig(sections: map<string, map<string, Value>>): (r: map<string, Value>)
    ensures forall k :: k in r <==> k in sections
    ensures forall k :: k in sections ==> r[k] == Dict(sections[k])
  {
    map k | k in sections :: Dict(sections[k])
  }

  /**
   * The loop of `_deep_merge` over the override's keys, on a dictionary nobody
   * else holds: afterwards it has the keys of both, the merged entry at each key
   * of the override and the old value everywhere else.
   */
  method MergeInto(base: map<string, Value>, ov: map<string, Value>) returns (merged: map<string, Value>)
    ensures forall k :: k in merged <==> k in base || k in ov
    ensures forall k :: k in ov ==> merged[k] == MergedEntry(base, ov, k)
    ensures forall k :: k in base && k !in ov ==> merged[k] == base[k]
  {
    merged := base;
    var keys := ov.Keys;
    while keys != {}
      invariant keys <= ov.Keys
      invariant forall k :: k in merged <==> k in base || (k in ov && k !in keys)
      invariant forall k :: k in ov && k !in keys ==> merged[k] == MergedEntry(base, ov, k)
      invariant forall k :: k in base && (k !in ov || k in keys) ==> merged[k] == base[k]
      decreases |keys|
    {
      var key :| key in keys;
      if key in merged && merged[key].Dict? && ov[key].Dict? {
        merged := merged[key := Dict(Merge(merged[key].fields, ov[key].fields))];
      } else {
        merged := merged[key := ov[key]];
      }
      keys := keys - {key};
    }
  }

  /** DEFAULT_CONFIG: its top level never changes, its sections can. */
  class Defaults {
    var sections: map<string, map<string, Value>>

    /** The class body. */
    constructor ()
      ensures sections == DefaultSections && Current() == DefaultConfig
    {
      sections := DefaultSections;
    }

    /** The current value of DEFAULT_CONFIG. */
    function Current(): map<string, Value>
      reads this
    {
      AsConfig(sections)
    }

    /** `_deep_merge(section, override)` on section `name`: it changes in place, for every holder of it. */
    method MergeSection(name: string, ov: map<string, Value>)
      requires name in sections
      modifies this
      ensures sections == old(sections)[name := Merge(old(sections)[name], ov)]
    {
      var merged := MergeInto(sections[name], ov);
      MergeByKeys(sections[name], ov, merged);
      sections := sections[name := merged];
    }

    /** `DEFAULT_CONFIG.copy()`: a new top level holding the same sections. */
    method Copy() returns (top: map<string, Slot>)
      ensures forall k :: k in top <==> k in sections
      ensures forall k :: k in top ==> top[k] == Shared
      ensures Refers(sections, top) && ValueIn(sections, top) == Current()
    {
      top := map k | k in sections :: Shared;
    }

    /** `copy.deepcopy(DEFAULT_CONFIG)`: nothing shared. */
    method DeepCopy() returns (v: map<string, Value>)
      ensures v == Current()
    {
      v := map k | k in sections :: Dict(sections[k]);
    }
  }

  /** A value of a top-level dictionary: DEFAULT_CONFIG's own section under the same key, or a value of its own. */
  datatype Slot = Shared | Own(v: Value)

  /** Every shared slot names an existing section. */
  predicate Refers(sections: map<string, map<string, Value>>, top: map<string, Slot>) {
    forall k :: k in top && top[k].Shared? ==> k in sections
  }

  /** The Python value of a top-level dictionary, given the sections' current contents. */
  function ValueIn(sections: map<string, map<string, Value>>, top: map<string, Slot>): (r: map<string, Value>)
    requires Refers(sections, top)
    ensures forall k :: k in r <==> k in top
  {
    map k | k in top :: if top[k].Shared? then Dict(sections[k]) else top[k].v
  }

  /** What merging `ov` into a shallow copy of `defaults` does to `defaults` itself: each section both sides hold as dictionaries is merged. */
  function SharedEffect(defaults: map<string, Value>, ov: map<string, Value>): map<string, Value> {
    map k | k in defaults ::
      if k in ov && defaults[k].Dict? && ov[k].Dict? then Dict(Merge(defaults[k].fields, ov[k].fields)) else defaults[k]
  }

  /** One round of `_deep_merge`'s loop on the sections: a shared section meeting a dictionary is merged in place. */
  function StepSections(sections: map<string, map<string, Value>>, top: map<string, Slot>, key: string, v: Value): map<string, map<string, Value>> {
    if key in top && top[key].Shared? && v.Dict? && key in sections then sections[key := Merge(sections[key], v.fields)] else sections
  }

  /** One round of `_deep_merge`'s loop on the top level: a shared section stays in its slot, anything else is rebound. */
  function StepSlots(top: map<string, Slot>, key: string, v: Value): map<string, Slot> {
    if key in top && top[key].Shared? && v.Dict? then top
    else if key in top && top[key].Own? && top[key].v.Dict? && v.Dict? then top[key := Own(Dict(Merge(top[key].v.fields, v.fields)))]
    else top[key := Own(v)]
  }

  /** `order` lists keys of `ov`, each at most once: the order in which `override.items()` produced them. */
  predicate Visits(ov: map<string, Value>, order: seq<string>) {
    (forall i :: 0 <= i < |order| ==> order[i] in ov) && forall i, j :: 0 <= i < j < |order| ==> order[i] != order[j]
  }

  /** The sections after the loop has handled the keys of `order`, in that order. */
  function SectionsAfter(s0: map<string, map<string, Value>>, top: map<string, Slot>, ov: map<string, Value>, order: seq<string>): map<string, map<string, Value>>
    requires forall i :: 0 <= i < |order| ==> order[i] in ov
  {
    if order == [] then s0
    else
      var p := order[..|order| - 1];
      StepSections(SectionsAfter(s0, top, ov, p), SlotsAfter(top, ov, p), order[|order| - 1], ov[order[|order| - 1]])
  }

  /** The top level after the loop has handled the keys of `order`, in that order. */
  function SlotsAfter(top: map<string, Slot>, ov: map<string, Value>, order: seq<string>): map<string, Slot>
    requires forall i :: 0 <= i < |order| ==> order[i] in ov
  {
    if order == [] then top
    else StepSlots(SlotsAfter(top, ov, order[..|order| - 1]), order[|order| - 1], ov[order[|order| - 1]])
  }

  /** The slot a key of the override ends in, whatever the order. */
  function FinalSlot(top: map<string, Slot>, ov: map<string, Value>, k: string): Slot
    requires k in ov
  {
    if k in top && top[k].Shared? && ov[k].Dict? then Shared
    else if k in top && top[k].Own? && top[k].v.Dict? && ov[k].Dict? then Own(Dict(Merge(top[k].v.fields, ov[k].fields)))
    else Own(ov[k])
  }

  /** The last key of `order` is not among the earlier ones. */
  lemma LastIsNew(ov: map<string, Value>, order: seq<string>)
    requires Visits(ov, order) && order != []
    ensures Visits(ov, order[..|order| - 1])
    ensures order[|order| - 1] !in order[..|order| - 1]
    ensures forall k :: k in order <==> k in order[..|order| - 1] || k == order[|order| - 1]
  {
    var p, x := order[..|order| - 1], order[|order| - 1];
    forall i | 0 <= i < |p| ensures p[i] != x { assert p[i] == order[i]; }
    assert order == p + [x];
  }

  /** Each key visited ends in its final slot; the others keep theirs. */
  lemma {:induction false} SlotsAfterByKey(top: map<string, Slot>, ov: map<string, Value>, order: seq<string>)
    requires Visits(ov, order)
    ensures forall k :: k in SlotsAfter(top, ov, order) <==> k in top || k in order
    ensures forall k :: k in order ==> SlotsAfter(top, ov, order)[k] == FinalSlot(top, ov, k)
    ensures forall k :: k in top && k !in order ==> SlotsAfter(top, ov, order)[k] == top[k]
  {
    if order != [] {
      LastIsNew(ov, order);
      SlotsAfterByKey(top, ov, order[..|order| - 1]);
    }
  }

  /** Exactly the shared sections met by a dictionary of the override are merged, each once. */
  lemma {:induction false} SectionsAfterByKey(s0: map<string, map<string, Value>>, top: map<string, Slot>, ov: map<string, Value>, order: seq<string>)
    requires Visits(ov, order)
    ensures forall k :: k in SectionsAfter(s0, top, ov, order) <==> k in s0
    ensures forall k :: k in s0 ==>
      SectionsAfter(s0, top, ov, order)[k] == (if k in top && top[k].Shared? && k in order && ov[k].Dict? then Merge(s0[k], ov[k].fields) else s0[k])
  {
    if order != [] {
      LastIsNew(ov, order);
      SectionsAfterByKey(s0, top, ov, order[..|order| - 1]);
      SlotsAfterByKey(top, ov, order[..|order| - 1]);
    }
  }

  /**
   * Whatever the order, once every key is handled the copy's value is the merge
   * of the override into its old value.
   */
  lemma ValuesAfterMerge(s0: map<string, map<string, Value>>, top: map<string, Slot>, ov: map<string, Value>, order: seq<string>)
    requires Refers(s0, top)
    requires Visits(ov, order) && forall k :: k in ov ==> k in order
    ensures Refers(SectionsAfter(s0, top, ov, order), SlotsAfter(top, ov, order))
    ensures ValueIn(SectionsAfter(s0, top, ov, order), SlotsAfter(top, ov, order)) == Merge(ValueIn(s0, top), ov)
  {
    SlotsAfterByKey(top, ov, order);
    SectionsAfterByKey(s0, top, ov, order);
    var sections, slots := SectionsAfter(s0, top, ov, order), SlotsAfter(top, ov, order);
    assert Refers(sections, slots) by {
      forall k | k in slots && slots[k].Shared? ensures k in sections {
        assert k in top && top[k].Shared?;
      }
    }
    var v0 := ValueIn(s0, top);
    var v := ValueIn(sections, slots);
    forall k | k in ov ensures v[k] == MergedEntry(v0, ov, k) {
      SlotValue(s0, top, ov, k, sections, slots[k]);
    }
    forall k | k in v0 && k !in ov ensures v[k] == v0[k] {
      assert slots[k] == top[k];
    }
    MergeByKeys(v0, ov, v);
  }

  /** The value of a key of the override in the final state: its merged entry. */
  lemma SlotValue(s0: map<string, map<string, Value>>, top: map<string, Slot>, ov: map<string, Value>, k: string, sections: map<string, map<string, Value>>, slot: Slot)
    requires Refers(s0, top) && k in ov
    requires slot == FinalSlot(top, ov, k)
    requires k in s0 ==> k in sections && sections[k] == (if k in top && top[k].Shared? && ov[k].Dict? then Merge(s0[k], ov[k].fields) else s0[k])
    requires slot.Shared? ==> k in s0
    ensures (if slot.Shared? then Dict(sections[k]) else slot.v) == MergedEntry(ValueIn(s0, top), ov, k)
  {
  }

  /** Through a full shallow copy, DEFAULT_CONFIG's value changes by the shared effect. */
  lemma SectionsAfterCopy(s0: map<string, map<string, Value>>, top: map<string, Slot>, ov: map<string, Value>, order: seq<string>)
    requires forall k :: k in top <==> k in s0
    requires forall k :: k in top ==> top[k] == Shared
    requires Visits(ov, order) && forall k :: k in ov ==> k in order
    ensures AsConfig(SectionsAfter(s0, top, ov, order)) == SharedEffect(AsConfig(s0), ov)
  {
    SectionsAfterByKey(s0, top, ov, order);
  }

  /** The defaults change exactly where the returned configuration recursed: there they equal the result. */
  lemma SharedEffectLeaks(defaults: map<string, Value>, ov: map<string, Value>, k: string)
    requires k in defaults
    ensures k in ov && defaults[k].Dict? && ov[k].Dict? ==> SharedEffect(defaults, ov)[k] == Merge(defaults, ov)[k]
    ensures !(k in ov && defaults[k].Dict? && ov[k].Dict?) ==> SharedEffect(defaults, ov)[k] == defaults[k]
  {
  }

  /** Nothing merged, nothing written. */
  lemma SharedEffectEmpty(defaults: map<string, Value>)
    ensures SharedEffect(defaults, map[]) == defaults
  {
  }

  /** The document `parse` merges: the mapping read from the chosen file, or nothing. */
  function AppliedOverride(repo: string, configFile: Option<string>, files: Files): map<string, Value> {
    var p := ConfigCandidate(repo, configFile, files.Keys);
    if p.Some? && p.value in files && files[p.value].Parsed? && files[p.value].doc.Dict? then files[p.value].doc.fields
    else map[]
  }

  /** `parse` is the merge of the applied override into the defaults. */
  lemma ParseIsMerge(defaults: map<string, Value>, repo: string, configFile: Option<string>, files: Files)
    ensures Config.Parse(defaults, repo, configFile, files) == Merge(defaults, AppliedOverride(repo, configFile, files))
  {
    MergeEmpty(defaults);
  }

  class ConfigParser {
    /** The class attribute DEFAULT_CONFIG: the same object for every parser. */
    const defaults: Defaults
    const repoPath: string
    const configFile: Option<string>

    constructor (defaults: Defaults, repoPath: string, configFile: Option<string>)
      ensures this.defaults == defaults && this.repoPath == repoPath && this.configFile == configFile
    {
      this.defaults := defaults;
      this.repoPath := repoPath;
      this.configFile := configFile;
    }

    /** `_find_config_file`, with `existing` the paths that exist. */
    method FindConfigFile(existing: set<string>) returns (r: Option<string>)
      ensures r == ConfigCandidate(repoPath, configFile, existing)
    {
      if configFile.Some? && configFile.value != "" {
        return Some(PathStr(configFile.value));
      }
      var i := 0;
      while i < |ConfigNames|
        invariant 0 <= i <= |ConfigNames|
        invariant FirstExisting(repoPath, ConfigNames, existing) == FirstExisting(repoPath, ConfigNames[i..], existing)
      {
        var path := Join(repoPath, ConfigNames[i]);
        if path in existing {
          return Some(path);
        }
        assert ConfigNames[i..][1..] == ConfigNames[i + 1..];
        i := i + 1;
      }
      return None;
    }

    /**
     * `_deep_merge(merged_config, override)` on a copy of DEFAULT_CONFIG's top
     * level. `order` is the order in which `override.items()` yields the keys.
     */
    method DeepMerge(top: map<string, Slot>, ov: map<string, Value>) returns (r: map<string, Slot>, ghost order: seq<string>)
      requires Refers(defaults.sections, top)
      modifies defaults
      ensures Visits(ov, order) && forall k :: k in ov ==> k in order
      ensures defaults.sections == SectionsAfter(old(defaults.sections), top, ov, order)
      ensures r == SlotsAfter(top, ov, order)
    {
      ghost var s0 := defaults.sections;
      r := top;
      order := [];
      var keys := ov.Keys;
      while keys != {}
        invariant keys <= ov.Keys
        invariant Visits(ov, order)
        invariant forall i :: 0 <= i < |order| ==> order[i] !in keys
        invariant forall k :: k in ov ==> k in keys || k in order
        invariant defaults.sections == SectionsAfter(s0, top, ov, order)
        invariant r == SlotsAfter(top, ov, order)
        invariant Refers(defaults.sections, r)
        decreases |keys|
      {
        var key :| key in keys;
        ghost var p := order;
        order := order + [key];
        assert order[..|order| - 1] == p;
        r := MergeKey(r, key, ov[key]);
        keys := keys - {key};
      }
    }

    /** One round of `_deep_merge`'s loop: a shared section meeting a dictionary is merged in place, anything else rebound. */
    method MergeKey(top: map<string, Slot>, key: string, v: Value) returns (r: map<string, Slot>)
      requires Refers(defaults.sections, top)
      modifies defaults
      ensures defaults.sections == StepSections(old(defaults.sections), top, key, v)
      ensures r == StepSlots(top, key, v)
      ensures Refers(defaults.sections, r)
    {
      r := top;
      if key in top && top[key].Shared? && v.Dict? {
        defaults.MergeSection(key, v.fields);
      } else if key in top && top[key].Own? && top[key].v.Dict? && v.Dict? {
        r := top[key := Own(Dict(Merge(top[key].v.fields, v.fields)))];
      } else {
        r := top[key := Own(v)];
      }
    }

    /** `_load_config(path)` as written: the merge goes into a shallow copy of DEFAULT_CONFIG. */
    method LoadConfig(path: string, files: Files) returns (config: map<string, Slot>)
      requires path in files
      modifies defaults
      ensures Refers(defaults.sections, config)
      ensures ValueIn(defaults.sections, config) == Loaded(old(defaults.Current()), files[path])
      ensures defaults.Current() == SharedEffect(old(defaults.Current()),
        if files[path].Parsed? && Truthy(files[path].doc) && files[path].doc.Dict? then files[path].doc.fields else map[])
    {
      SharedEffectEmpty(defaults.Current());
      match files[path]
      case Unreadable =>
        config := defaults.Copy();
      case Parsed(doc) =>
        var merged := defaults.Copy();
        if Truthy(doc) {
          if doc.Dict? {
            ghost var s0 := defaults.sections;
            ghost var order;
            config, order := DeepMerge(merged, doc.fields);
            ValuesAfterMerge(s0, merged, doc.fields, order);
            SectionsAfterCopy(s0, merged, doc.fields, order);
          } else {
            // `.items()` of a list, string, number or boolean raises AttributeError before any write
            config := defaults.Copy();
          }
        } else {
          config := merged;
        }
    }

    /** `parse` as written. */
    method Parse(files: Files) returns (config: map<string, Slot>)
      modifies defaults
      ensures Refers(defaults.sections, config)
      ensures ValueIn(defaults.sections, config) == Config.Parse(old(defaults.Current()), repoPath, configFile, files)
      ensures defaults.Current() == SharedEffect(old(defaults.Current()), AppliedOverride(repoPath, configFile, files))
    {
      SharedEffectEmpty(defaults.Current());
      var path := FindConfigFile(files.Keys);
      if path.Some? && path.value in files {
        config := LoadConfig(path.value, files);
        assert !Truthy(Dict(map[]));
      } else {
        config := defaults.Copy();
      }
    }

    /** `parse` with `copy.deepcopy` in place of `.copy()`: DEFAULT_CONFIG is left alone. */
    method ParseCorrected(files: Files) returns (config: map<string, Value>)
      ensures config == Config.Parse(defaults.Current(), repoPath, configFile, files)
    {
      var path := FindConfigFile(files.Keys);
      config := defaults.DeepCopy();
      if path.Some? && path.value in files {
        match files[path.value]
        case Unreadable =>
        case Parsed(doc) =>
          if Truthy(doc) && doc.Dict? {
            ghost var d := config;
            config := MergeInto(config, doc.fields);
            MergeByKeys(d, doc.fields, config);
          }
      }
    }
  }

  /** A configuration document that renames the pipeline. */
  const Rename: map<string, Value> := map["pipeline" := Dict(map["name" := Str("My Pipeline")])]

  /** A repository whose `pipeline-config.yml` renames the pipeline. */
  function RenamingFiles(repo: string): Files {
    map[Join(repo, "pipeline-config.yml") := Parsed(Dict(Rename))]
  }

  /** `parse` of the renaming repository applies the renaming document. */
  lemma RenamingApplies(repo: string)
    ensures AppliedOverride(repo, None, RenamingFiles(repo)) == Rename
  {
    assert Join(repo, ConfigNames[0]) in RenamingFiles(repo);
  }

  /** `parse` of a repository without configuration files applies nothing. */
  lemma NothingApplies(repo: string)
    ensures AppliedOverride(repo, None, map[]) == map[]
  {
    FirstExistingIsFirst(repo, ConfigNames, {});
  }

  /** Merged into any configuration with a pipeline section, the renaming document renames it, in the result and in the shared defaults. */
  lemma Renamed(v: map<string, Value>)
    requires "pipeline" in v && v["pipeline"].Dict?
    ensures At(Merge(v, Rename), ["pipeline", "name"]) == Some(Str("My Pipeline"))
    ensures At(SharedEffect(v, Rename), ["pipeline", "name"]) == Some(Str("My Pipeline"))
  {
    MergeOverrideLeaf(v, Rename, ["pipeline", "name"]);
    MergeOverrideLeaf(v["pipeline"].fields, Rename["pipeline"].fields, ["name"]);
  }

  /** DEFAULT_CONFIG names the pipeline "CI/CD Pipeline". */
  lemma DefaultName()
    ensures At(AsConfig(DefaultSections), ["pipeline", "name"]) == Some(Str("CI/CD Pipeline"))
  {
    var v := AsConfig(DefaultSections);
    assert "pipeline" in DefaultSections;
    assert v["pipeline"] == Dict(DefaultPipeline);
  }

  /** As written: after one parser reads a renaming configuration, another parser of a repository without one still gets the renamed pipeline. */
  method SharedDefaultsWitness() returns (first: Option<Value>, second: Option<Value>)
    ensures first == Some(Str("My Pipeline"))
    ensures second == Some(Str("My Pipeline"))
  {
    var defaults := new Defaults();
    ghost var v0 := defaults.Current();
    assert "pipeline" in DefaultSections;
    var p1 := new ConfigParser(defaults, "repo", None);
    var c1 := p1.Parse(RenamingFiles("repo"));
    ParseIsMerge(v0, "repo", None, RenamingFiles("repo"));
    RenamingApplies("repo");
    Renamed(v0);
    first := At(ValueIn(defaults.sections, c1), ["pipeline", "name"]);
    ghost var v1 := defaults.Current();
    var p2 := new ConfigParser(defaults, "other", None);
    var c2 := p2.Parse(map[]);
    ParseIsMerge(v1, "other", None, map[]);
    NothingApplies("other");
    MergeEmpty(v1);
    second := At(ValueIn(defaults.sections, c2), ["pipeline", "name"]);
  }

  /** Corrected: the second parser gets the default name. */
  method IsolatedDefaultsWitness() returns (first: Option<Value>, second: Option<Value>)
    ensures first == Some(Str("My Pipeline"))
    ensures second == Some(Str("CI/CD Pipeline"))
  {
    var defaults := new Defaults();
    ghost var v0 := defaults.Current();
    assert "pipeline" in DefaultSections;
    var p1 := new ConfigParser(defaults, "repo", None);
    var c1 := p1.ParseCorrected(RenamingFiles("repo"));
    ParseIsMerge(v0, "repo", None, RenamingFiles("repo"));
    RenamingApplies("repo");
    Renamed(v0);
    first := At(c1, ["pipeline", "name"]);
    var p2 := new ConfigParser(defaults, "other", None);
    var c2 := p2.ParseCorrected(map[]);
    assert defaults.Current() == v0;
    ParseIsMerge(v0, "other", None, map[]);
    NothingApplies("other");
    MergeEmpty(v0);
    assert c2 == v0;
    DefaultName();
    second := At(c2, ["pipeline", "name"]);
  }
}
