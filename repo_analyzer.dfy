/**
 * RepositoryAnalyzer: which languages a repository uses, judged by file suffix
 * through a fixed table, and whether it has a root Dockerfile.
 */
module RepoAnalyzer {
  import opened Paths
  import opened RepoTree
  import opened Outcomes

  /** LANGUAGE_EXTENSIONS, in the dictionary's order: language -> its suffixes. */
  const LanguageExtensions: seq<(string, seq<string>)> := [
    ("python", [".py"]),
    ("javascript", [".js", ".jsx"]),
    ("typescript", [".ts", ".tsx"]),
    ("java", [".java"]),
    ("go", [".go"]),
    ("ruby", [".rb"]),
    ("php", [".php"])
  ]

  /** `lang` is a key of LANGUAGE_EXTENSIONS. */
  predicate IsLanguage(lang: string) {
    exists j :: 0 <= j < |LanguageExtensions| && LanguageExtensions[j].0 == lang
  }

  /** One of the first `n` rows of the table maps `ext` to `lang`. */
  predicate RowsRecognise(lang: string, ext: string, n: nat)
    requires n <= |LanguageExtensions|
  {
    exists j :: 0 <= j < n && LanguageExtensions[j].0 == lang && ext in LanguageExtensions[j].1
  }

  /** `ext in extensions` for the table row of `lang`. */
  predicate Recognises(lang: string, ext: string) {
    RowsRecognise(lang, ext, |LanguageExtensions|)
  }

  /** One of the first `n` walked files has a suffix among `lang`'s extensions. */
  predicate DetectedAmong(entries: seq<WalkEntry>, lang: string, n: nat)
    requires n <= |entries|
  {
    exists i :: 0 <= i < n && Recognises(lang, Suffix(entries[i].name))
  }

  /** Some walked file's suffix is one of `lang`'s extensions. */
  predicate Detected(entries: seq<WalkEntry>, lang: string) {
    DetectedAmong(entries, lang, |entries|)
  }

  /** The table is many-to-one with disjoint rows: a suffix belongs to at most one language. */
  lemma SuffixHasOneLanguage(ext: string, l1: string, l2: string)
    requires Recognises(l1, ext) && Recognises(l2, ext)
    ensures l1 == l2
  {
  }

  // Python's ordering of str: lexicographic by code point.

  predicate Less(a: string, b: string)
    decreases |a|
  {
    b != [] && (a == [] || a[0] < b[0] || (a[0] == b[0] && Less(a[1..], b[1..])))
  }

  lemma {:induction false} LessIrreflexive(a: string)
    ensures !Less(a, a)
    decreases |a|
  {
    if a != [] { LessIrreflexive(a[1..]); }
  }

  lemma {:induction false} LessTransitive(a: string, b: string, c: string)
    requires Less(a, b) && Less(b, c)
    ensures Less(a, c)
    decreases |a|
  {
    if a != [] && a[0] == b[0] && b[0] == c[0] {
      LessTransitive(a[1..], b[1..], c[1..]);
    }
  }

  lemma {:induction false} LessTotal(a: string, b: string)
    requires a != b
    ensures Less(a, b) || Less(b, a)
    decreases |a|
  {
    if a != [] && b != [] && a[0] == b[0] {
      assert a == [a[0]] + a[1..] && b == [b[0]] + b[1..];
      LessTotal(a[1..], b[1..]);
    }
  }

  /** `m` is the least element of `s`. */
  predicate IsLeast(m: string, s: set<string>) {
    m in s && forall x :: x in s && x != m ==> Less(m, x)
  }

  /** Every non-empty finite set of strings has a least element. */
  lemma {:induction false} MinimumExists(s: set<string>) returns (m: string)
    requires s != {}
    ensures IsLeast(m, s)
    decreases |s|
  {
    var y :| y in s;
    if s == {y} {
      m := y;
    } else {
      var m' := MinimumExists(s - {y});
      LessTotal(m', y);
      if Less(y, m') {
        forall x | x in s && x != y ensures Less(y, x) {
          if x != m' { LessTransitive(y, m', x); }
        }
        m := y;
      } else {
        m := m';
      }
    }
  }

  /** Each element is less than every later one. */
  predicate StrictlyAscending(s: seq<string>) {
    forall i, j :: 0 <= i < j < |s| ==> Less(s[i], s[j])
  }

  /** `sorted(list(s))` for a set of strings. */
  method SortStrings(s: set<string>) returns (r: seq<string>)
    ensures StrictlyAscending(r)
    ensures forall x :: x in r <==> x in s
    ensures forall i, j :: 0 <= i < j < |r| ==> r[i] != r[j]
    ensures |r| == |s|
  {
    r := [];
    var rest := s;
    while rest != {}
      invariant rest <= s
      invariant |r| + |rest| == |s|
      invariant forall x :: x in r <==> x in s && x !in rest
      invariant StrictlyAscending(r)
      invariant forall i, x :: 0 <= i < |r| && x in rest ==> Less(r[i], x)
      decreases |rest|
    {
      ghost var least := MinimumExists(rest);
      var m :| m in rest && IsLeast(m, rest);
      ghost var r0, rest0 := r, rest;
      r := r + [m];
      rest := rest - {m};
      forall i, x | 0 <= i < |r| && x in rest ensures Less(r[i], x) {
        if i == |r0| { assert IsLeast(m, rest0); assert r[i] == m; assert x in rest0 && x != m; assert Less(m, x); } else { assert r[i] == r0[i]; }
      }
    }
    forall i, j | 0 <= i < j < |r| ensures r[i] != r[j] {
      if r[i] == r[j] { LessIrreflexive(r[i]); }
    }
  }

  /** One more table row recognises what the earlier rows did, plus its own extensions. */
  lemma RowsRecogniseStep(ext: string, j: nat)
    requires j < |LanguageExtensions|
    ensures forall l :: RowsRecognise(l, ext, j + 1) <==> RowsRecognise(l, ext, j) || (LanguageExtensions[j].0 == l && ext in LanguageExtensions[j].1)
  {
    forall l ensures RowsRecognise(l, ext, j + 1) ==> RowsRecognise(l, ext, j) || (LanguageExtensions[j].0 == l && ext in LanguageExtensions[j].1) {
      if RowsRecognise(l, ext, j + 1) {
        var k :| 0 <= k < j + 1 && LanguageExtensions[k].0 == l && ext in LanguageExtensions[k].1;
      }
    }
  }

  /** One more walked file detects what the earlier files did, plus its own language. */
  lemma DetectedStep(entries: seq<WalkEntry>, i: nat)
    requires i < |entries|
    ensures forall l :: DetectedAmong(entries, l, i + 1) <==> DetectedAmong(entries, l, i) || Recognises(l, Suffix(entries[i].name))
  {
    forall l ensures DetectedAmong(entries, l, i + 1) ==> DetectedAmong(entries, l, i) || Recognises(l, Suffix(entries[i].name)) {
      if DetectedAmong(entries, l, i + 1) {
        var k :| 0 <= k < i + 1 && Recognises(l, Suffix(entries[k].name));
      }
    }
  }

  /** Lines 36-39 for one file: add every language whose extensions hold `ext`. */
  method AddLanguagesOf(languages: set<string>, ext: string) returns (r: set<string>)
    ensures forall l :: l in r <==> l in languages || Recognises(l, ext)
  {
    r := languages;
    for j := 0 to |LanguageExtensions|
      invariant forall l :: l in r <==> l in languages || RowsRecognise(l, ext, j)
    {
      if ext in LanguageExtensions[j].1 {
        r := r + {LanguageExtensions[j].0};
      }
      RowsRecogniseStep(ext, j);
    }
  }

  /** Lines 33-39: the set of languages of every walked file. */
  method CollectLanguages(entries: seq<WalkEntry>) returns (languages: set<string>)
    ensures forall l :: l in languages <==> Detected(entries, l)
  {
    languages := {};
    for i := 0 to |entries|
      invariant forall l :: l in languages <==> DetectedAmong(entries, l, i)
    {
      languages := AddLanguagesOf(languages, Suffix(entries[i].name));
      DetectedStep(entries, i);
    }
  }

  /** Only keys of the table are ever detected. */
  lemma DetectedIsLanguage(entries: seq<WalkEntry>, l: string)
    requires Detected(entries, l)
    ensures IsLanguage(l)
  {
    var i :| 0 <= i < |entries| && Recognises(l, Suffix(entries[i].name));
    var j :| 0 <= j < |LanguageExtensions| && LanguageExtensions[j].0 == l && Suffix(entries[i].name) in LanguageExtensions[j].1;
  }

  /** `_detect_languages`: collect the languages of every walked file, then sort them. */
  method DetectLanguages(entries: seq<WalkEntry>) returns (langs: seq<string>)
    ensures StrictlyAscending(langs)
    ensures forall i, j :: 0 <= i < j < |langs| ==> langs[i] != langs[j]
    ensures forall l :: l in langs <==> Detected(entries, l)
    ensures forall l :: l in langs ==> IsLanguage(l)
    ensures entries == [] ==> langs == []
  {
    var languages := CollectLanguages(entries);
    langs := SortStrings(languages);
    forall l | l in langs ensures IsLanguage(l) {
      DetectedIsLanguage(entries, l);
    }
    if entries == [] {
      assert forall l :: l !in languages;
      assert languages == {};
    }
  }

  /** The walk prunes nothing: moving a file to another directory, `.git` or `node_modules` included, changes no detection. */
  lemma DetectionIgnoresDirectories(entries: seq<WalkEntry>, i: nat, d: seq<string>, lang: string)
    requires i < |entries|
    ensures Detected(entries[i := entries[i].(dir := d)], lang) <==> Detected(entries, lang)
  {
    var moved := entries[i := entries[i].(dir := d)];
    assert forall k :: 0 <= k < |entries| ==> moved[k].name == entries[k].name;
  }

  /** A Python file inside `.git` still makes the repository a Python one. */
  lemma VcsFileDetected()
    ensures Detected([WalkEntry([".git", "hooks"], "update.py", Some(""))], "python")
  {
    assert LastDot("update.py") == 6;
    assert Suffix("update.py") == ".py";
    assert LanguageExtensions[0].0 == "python" && ".py" in LanguageExtensions[0].1;
    assert Recognises("python", ".py");
    var entries := [WalkEntry([".git", "hooks"], "update.py", Some(""))];
    assert Recognises("python", Suffix(entries[0].name));
  }

  /** The record `analyze` returns. */
  datatype Analysis = Analysis(languages: seq<string>, frameworks: seq<string>, hasDocker: bool, hasTests: bool)

  /** `analyze`: frameworks and has_tests are constants in the code, whatever the tree holds. */
  method Analyze(entries: seq<WalkEntry>) returns (a: Analysis)
    ensures StrictlyAscending(a.languages)
    ensures forall l :: l in a.languages <==> Detected(entries, l)
    ensures a.frameworks == [] && !a.hasTests
    ensures a.hasDocker <==> HasDockerfile(entries)
    ensures entries == [] ==> a.languages == [] && !a.hasDocker
  {
    var langs := DetectLanguages(entries);
    a := Analysis(langs, [], HasDockerfile(entries), false);
  }
}
