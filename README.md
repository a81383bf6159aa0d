# CI/CD pipeline framework: scanners, analyzer, configuration, dashboard

This project models four pieces of decision logic of a small CI/CD pipeline
generator written in Python. It proves properties of each.

- **Security scanner** (`SecurityScanner`, security_scanner.dfy). `run_scans`
  walks the requested scanner names and fills a results dictionary.
  - Trivy and Snyk are external tools. The model sees them only through what
    they answer: version probe, run, report file and decoded JSON.
  - SAST walks the repository's Python files and matches them against a fixed
    table of eight rules. The regex engine is a parameter.
  - `SecurityScanner.__init__` refuses a missing path.
- **Repository analyzer** (`RepoAnalyzer`, repo_analyzer.dfy). Language
  detection goes through a fixed suffix table, then `sorted(list(...))`
  (Python's code-point order on `str`). `analyze` builds the report record,
  which includes root-Dockerfile detection.
- **Configuration parser**. There are two modules:
  - `Config` (config.dfy) holds the pure part: `DEFAULT_CONFIG`,
    `_deep_merge` as a function on values, `_find_config_file`'s first-match
    search, and the value `parse` returns.
  - `ConfigStore` (config_store.dfy) models the Python objects themselves. The
    class attribute `DEFAULT_CONFIG` is one object. `dict.copy()` is shallow,
    so `_deep_merge` writes into the class-level section dictionaries.
- **Dashboard** (`Dashboard`, dashboard.dfy). It covers the file-name guard
  and status ladder of `get_report`, and the skip-on-error listing of
  `get_reports`.

Shared vocabulary:
- `Outcomes`: Option and Result.
- `Values`: parsed JSON/YAML values, plus Python's truthiness, `len` and
  `dict.get` on them.
- `Paths`: pathlib's POSIX normal form (`str(Path(p))`) and joining
  (`str(Path(dir) / name)`), suffix and stem, and `str.count`. Report files,
  configuration candidates and the filesystem's keys are paths in that form.
- `RepoTree`: the `os.walk` listing, one entry per file with its directory
  components and its content when readable.

Where the code and its documented behaviour disagree (the expectations of
tests/test_analyzer.py, for instance), the model follows the code:
- The language walk prunes no directory, so files under `.git` count
  (`RepoAnalyzer.DetectionIgnoresDirectories`).
- `has_tests` is always `False` and `frameworks` is always empty.
- Some exceptions are not caught and abort `run_scans`:
  - a version probe raising something other than `CalledProcessError` or
    `FileNotFoundError`;
  - `mkdir` failing;
  - the SAST report write failing.
- An explicit configuration file is used as `Path` prints it. It is not joined
  to the repository path.
- `get_report` on a directory (the names `""` and `"."`, or a subdirectory),
  and any read error other than the two caught ones, escape the view. Flask
  answers those with its generic 500.

## Model

| member | source | states |
|---|---|---|
| SecurityScanner.NewScanner | src/scanners/security_scanner.py:16-19 | the scanner is built exactly when the path exists; otherwise the error names the path |
| SecurityScanner.RunScans | src/scanners/security_scanner.py:21-38 | the loop's result and the reports written equal the reference fold `RunLoop`, including the abort on an uncaught exception and on a failed `mkdir`; an abort carries the reports already written |
| SecurityScanner.AbortKeepsEarlierReports | src/scanners/security_scanner.py:28-34 | when invocation `k` raises, the run aborts with that exception and with exactly the reports the invocations before `k` wrote |
| SecurityScanner.RunLoopEscape | src/scanners/security_scanner.py:28-34 | an escape in one invocation is the escape of the whole run; later names are not run |
| SecurityScanner.RunKeys | src/scanners/security_scanner.py:23-36 | the result's keys are the requested names, each once, in first-request order |
| SecurityScanner.DedupMembers | src/scanners/security_scanner.py:28-36 | first-occurrence order holds every requested name, and holds each once |
| SecurityScanner.PutKeys | src/scanners/security_scanner.py:30-36 | assigning into the dictionary keeps an existing key in place and appends a new one |
| SecurityScanner.PutLookup | src/scanners/security_scanner.py:30-36 | after an assignment that key holds the new result and every other key is unchanged |
| SecurityScanner.RunLastWins | src/scanners/security_scanner.py:28-36 | a name's entry is the result of its last invocation; an earlier duplicate is overwritten |
| SecurityScanner.LastOccurrence | src/scanners/security_scanner.py:28 | every requested name has a last occurrence in the list |
| SecurityScanner.RunEscapesIff | src/scanners/security_scanner.py:28-34 | the run completes if and only if no invocation raises past its handlers |
| SecurityScanner.DispatchEscapes | src/scanners/security_scanner.py:29-36 | only three things escape: trivy's probe raising (with a Dockerfile), snyk's probe raising (with a token), and sast's write failing; an unknown name yields the `unknown` result |
| SecurityScanner.UnknownNameRecorded | src/scanners/security_scanner.py:35-36 | an unrecognised name ends up as `{'status': 'unknown', 'message': 'Unknown scanner: ' + name}` in a completed run |
| SecurityScanner.TrivyLadder | src/scanners/security_scanner.py:43-92 | no Dockerfile gives skipped, and a failed probe gives "Trivy not installed"; a raising run or an undecodable report gives an error with its exception text; a decoded report gives success with its count, or an error with the counting exception's text; every result carries an issue count that is 0 unless successful; success names trivy-report.json; trivy writes no report itself |
| SecurityScanner.CountTrivyIssues | src/scanners/security_scanner.py:73-80 | the `issues +=` loop computes the reference count, and the first exception in it wins |
| SecurityScanner.VulnerabilityTotalError | src/scanners/security_scanner.py:79-80 | an exception in the first results is the exception of the whole count |
| SecurityScanner.VulnerabilityTotalSums | src/scanners/security_scanner.py:79-80 | on well-formed results the loop's count is the sum of the `Vulnerabilities` lengths, a missing list counting 0 |
| SecurityScanner.TrivyCountsVulnerabilities | src/scanners/security_scanner.py:73-80 | a report whose `Results` is a list of well-formed entries, whatever other keys it has, counts the sum of their `Vulnerabilities` lengths |
| SecurityScanner.SumVulnerabilitiesSnoc | src/scanners/security_scanner.py:79-80 | the sum over results adds the last result's vulnerabilities to the sum over the others |
| SecurityScanner.TrivyScanCountsVulnerabilities | src/scanners/security_scanner.py:62-86 | with Trivy installed and a decoded report whose `Results` lists well-formed entries, the scan succeeds, naming trivy-report.json, with the sum of their `Vulnerabilities` lengths |
| SecurityScanner.TrivyNoResults | src/scanners/security_scanner.py:78 | a report without `Results` counts 0 issues |
| SecurityScanner.RunTrivy | src/scanners/security_scanner.py:40-92 | `_run_trivy` returns the ladder `TrivyScan`: skipped, not installed, raised run, absent report (0 issues), undecodable report, counting error, counted success |
| SecurityScanner.SnykScan | src/scanners/security_scanner.py:94-148 | `_run_snyk` escapes exactly when the token is set and the probe raises unexpectedly; every result carries an issue count, 0 unless successful; a report is recorded exactly when `snyk test` ran and its output was written, and it is the raw stdout at snyk-report.json |
| SecurityScanner.SnykLadder | src/scanners/security_scanner.py:97-148 | an unset or empty token gives skipped, and a failed probe gives "Snyk CLI not installed"; once `snyk test` runs, a raising run or a raising write gives an error with that exception's text and no report; a saved output that decodes gives success with the `len` of its `vulnerabilities` (default `[]`), or an error with the `.get`/`len` exception's text, the report being written either way; results always carry 0 issues unless successful |
| SecurityScanner.SnykSavesOutputBeforeParsing | src/scanners/security_scanner.py:127-142 | once the output is saved, the report holds the raw stdout whether or not it decodes; undecodable output counts 0 and a dictionary without `vulnerabilities` counts 0, both as success; a present value counts its `len` (a list its items) or gives the TypeError result; a non-dictionary document gives the AttributeError result |
| SecurityScanner.AppendMatchFindings | src/scanners/security_scanner.py:189-198 | one finding per match, in match order, appended to the list |
| SecurityScanner.AppendFileFindings | src/scanners/security_scanner.py:186-198 | a file's findings are appended rule by rule in table order |
| SecurityScanner.RunSast | src/scanners/security_scanner.py:150-211 | `_run_sast` walks the entries, reads the `.py` files outside pruned directories, skips unreadable ones, and returns the reference `SastScan` |
| SecurityScanner.MatchFindingsProvenance | src/scanners/security_scanner.py:189-198 | every finding of a rule comes from one of its matches |
| SecurityScanner.RuleFindingsProvenance | src/scanners/security_scanner.py:186-198 | every finding of a file comes from some rule's match |
| SecurityScanner.SastProvenance | src/scanners/security_scanner.py:176-198 | every finding comes from a rule's match in a scanned file: a `.py` name, outside `.git`/`node_modules`/`venv`/`__pycache__`, readable |
| SecurityScanner.MatchFindingsComplete | src/scanners/security_scanner.py:189-198 | every match of a rule yields its finding |
| SecurityScanner.RuleFindingsComplete | src/scanners/security_scanner.py:186-198 | every match of every rule in the table yields its finding |
| SecurityScanner.SastComplete | src/scanners/security_scanner.py:176-198 | every match of every rule in every scanned file lands in the report |
| SecurityScanner.SastFindingsExactly | src/scanners/security_scanner.py:176-198 | a finding is in the report if and only if it is a rule's match in a scanned file |
| SecurityScanner.MatchFindingsLength | src/scanners/security_scanner.py:189-198 | a rule contributes exactly one finding per match |
| SecurityScanner.RuleFindingsLength | src/scanners/security_scanner.py:186-198 | a file contributes as many findings as its rules have matches |
| SecurityScanner.SastCountsMatches | src/scanners/security_scanner.py:176-209 | `issues_found` is the total number of matches over the scanned files: none dropped, none added |
| SecurityScanner.FindingLine | src/scanners/security_scanner.py:191 | a finding's line is at least 1 and at most the file's newline count plus 1; its file is the relative path; category and description come from one rule |
| SecurityScanner.FindingCode | src/scanners/security_scanner.py:197 | with a sound engine, `code` is the text found at the offset the line is counted from |
| SecurityScanner.SastFindingsSplit | src/scanners/security_scanner.py:176-198 | findings follow the walk: an earlier file's findings come before a later file's |
| SecurityScanner.SastSkipsUnscanned | src/scanners/security_scanner.py:177-200 | a non-`.py`, pruned or unreadable file contributes nothing |
| SecurityScanner.SastReport | src/scanners/security_scanner.py:202-211 | once the report is written SAST succeeds, `issues_found` is the report list's length, and an empty walk still writes `{'issues': []}` |
| RepoAnalyzer.SuffixHasOneLanguage | src/analyzers/repo_analyzer.py:11-19 | the table's extension lists are disjoint: a suffix belongs to at most one language |
| RepoAnalyzer.DetectedIsLanguage | src/analyzers/repo_analyzer.py:11-19 | only keys of LANGUAGE_EXTENSIONS are ever detected |
| RepoAnalyzer.RowsRecogniseStep | src/analyzers/repo_analyzer.py:37-39 | one more table row recognises the earlier rows' languages plus its own |
| RepoAnalyzer.DetectedStep | src/analyzers/repo_analyzer.py:34-36 | one more walked file detects the earlier languages plus its own |
| RepoAnalyzer.AddLanguagesOf | src/analyzers/repo_analyzer.py:36-39 | the set grows by exactly the languages whose extensions include the suffix |
| RepoAnalyzer.CollectLanguages | src/analyzers/repo_analyzer.py:33-39 | a language is in the set if and only if some walked file's suffix is one of its extensions |
| RepoAnalyzer.LessIrreflexive | src/analyzers/repo_analyzer.py:40 | no string sorts before itself |
| RepoAnalyzer.LessTransitive | src/analyzers/repo_analyzer.py:40 | string order is transitive |
| RepoAnalyzer.LessTotal | src/analyzers/repo_analyzer.py:40 | of two different strings one sorts first |
| RepoAnalyzer.MinimumExists | src/analyzers/repo_analyzer.py:40 | every non-empty set of strings has a least element |
| RepoAnalyzer.SortStrings | src/analyzers/repo_analyzer.py:40 | `sorted(list(s))` is strictly ascending, duplicate-free, and holds exactly the members of `s` |
| RepoAnalyzer.DetectLanguages | src/analyzers/repo_analyzer.py:32-40 | the result is strictly ascending and duplicate-free, holds a language if and only if some file's suffix is one of its extensions, holds only table keys, and is empty for an empty walk |
| RepoAnalyzer.DetectionIgnoresDirectories | src/analyzers/repo_analyzer.py:34-35 | moving a file to any directory, `.git` included, changes no detection |
| RepoAnalyzer.VcsFileDetected | src/analyzers/repo_analyzer.py:34-39 | a `.py` file under `.git/hooks` makes the repository a Python one |
| RepoAnalyzer.Analyze | src/analyzers/repo_analyzer.py:24-30 | languages as detected, `frameworks` empty, `has_tests` false, `has_docker` exactly when a root `Dockerfile` exists; an empty tree gives no languages and no Docker |
| Paths.CountCharPrefix | src/scanners/security_scanner.py:191 | a prefix has no more newlines than the whole content |
| Paths.CountCharConcat | src/dashboard.py:75-78 | counting a character in a concatenation adds the two counts |
| Paths.CountCharAbsent | src/dashboard.py:75-78 | a character that does not occur counts zero |
| Paths.PartsConcat | src/scanners/security_scanner.py:25 | the components pathlib keeps of `a + "/" + b` are those of `a` followed by those of `b` |
| Paths.PartsNoSlash | src/scanners/security_scanner.py:25 | a separator-free string is one component, or none when it is "" or "." |
| Paths.PartsAreComponents | src/scanners/security_scanner.py:25 | every kept component is non-empty, not "." and free of separators |
| Paths.JoinAllSnoc | src/scanners/security_scanner.py:64 | joining components with one more at the end adds "/" and that component |
| Paths.RootPrefix | src/scanners/security_scanner.py:25 | appending to a path keeps its root (none, "/" or "//") unless a bare root is followed by another separator |
| Paths.ConcatComponent | src/scanners/security_scanner.py:64 | `PurePosixPath(dir) / name` keeps `dir`'s root and appends `name` to its components |
| Paths.JoinComponent | src/scanners/security_scanner.py:64 | `str(Path(dir) / name)` is `name` after "." or "", the root followed by `name` after a bare root, and otherwise `str(Path(dir))`, "/" and `name` |
| Paths.JoinCurrentDir | src/scanners/security_scanner.py:25 | an output directory of "" or "." puts each report file in the working directory under its bare name |
| Paths.JoinDropsLeadingDot | src/scanners/security_scanner.py:25 | a relative output directory written with a leading "./" names the same report files as without it |
| Paths.JoinDropsTrailingSlash | src/scanners/security_scanner.py:25 | an output directory written with a trailing "/" names the same report files as without it |
| Paths.JoinToComponent | src/dashboard.py:78 | a one-component directory joined with a separator-free name is the directory itself for "" and ".", and the directory, "/" and the name otherwise |
| Paths.Suffix | src/analyzers/repo_analyzer.py:36 | `Path(name).suffix`: from the last dot. Its partners: `Paths.StemSuffix` proves that stem plus suffix is the name and that a suffix is empty or a dot then non-dots, and `Paths.SuffixFromLastDot` that a last dot strictly inside the name starts the suffix |
| Paths.SuffixFromLastDot | src/analyzers/repo_analyzer.py:36 | when the last dot of a name is neither its first nor its last character, the suffix runs from that dot and the stem is everything before it |
| Paths.Stem | src/dashboard.py:61 | `report_file.stem`: the name without its suffix. Partner lemma `Paths.StemSuffix` |
| Paths.StemSuffix | src/analyzers/repo_analyzer.py:36 | stem plus suffix is the name, and a suffix is empty or a dot followed by at least one non-dot character |
| Values.Get | src/scanners/security_scanner.py:80 | `.get` succeeds exactly on a dictionary; it yields the stored value for a present key and the default for a missing one |
| Values.Len | src/scanners/security_scanner.py:134 | `len` succeeds exactly on a string, list or dictionary, and gives its number of characters, items or keys |
| Values.Truthy | src/config/config_parser.py:77 | `if config:`: None, False, 0, "" and empty containers are false. Partner lemma `Config.ParseFallsBack`: a falsy document gives the defaults |
| Config.Merge | src/config/config_parser.py:86-92 | `_deep_merge` on values. Partner lemmas: `ConfigStore.ValuesAfterMerge` proves it equal to the in-place loop in any key order, `Config.MergeKeepsUntouched` shows that paths the override does not reach keep the base's value, and `Config.MergeIdempotent` shows that merging the same override twice equals merging it once |
| Config.MergedEntry | src/config/config_parser.py:89-92 | the value at an override key: recursive merge if both sides are dictionaries, else the override's value. Partner lemmas `Config.MergeReplaces` and `Config.MergeOverrideLeaf` |
| Config.MergeByKeys | src/config/config_parser.py:86-92 | a dictionary with the merge's keys, the merged entry at each override key and the base value elsewhere is the merge |
| Config.MergeKeys | src/config/config_parser.py:88-92 | after the merge the base holds its own keys and every key of the override |
| Config.MergeKeepsBase | src/config/config_parser.py:88-92 | a key the override does not mention keeps its value |
| Config.MergeReplaces | src/config/config_parser.py:89-92 | unless both sides are dictionaries the override's value replaces the base's wholesale: lists are not appended, a dictionary can become a scalar |
| Config.MergeEmpty | src/config/config_parser.py:88 | an empty override leaves the base unchanged |
| Config.MergeIntoEmpty | src/config/config_parser.py:88-92 | merging into an empty dictionary yields the override |
| Config.MergeSelf | src/config/config_parser.py:86-92 | merging a dictionary into itself changes nothing |
| Config.MergeIdempotent | src/config/config_parser.py:86-92 | merging the same override twice equals merging it once |
| Config.MergeKeepsUntouched | src/config/config_parser.py:86-92 | a nested value the override neither mentions nor cuts off survives the merge |
| Config.MergeOverrideLeaf | src/config/config_parser.py:86-92 | every non-dictionary value of the override ends up at its nested path |
| Config.MergeDefaultsExample | src/config/config_parser.py:14-29 | overriding only `pipeline.name` in DEFAULT_CONFIG renames the pipeline, keeps the default triggers and adds no key |
| Config.FirstExistingIsFirst | src/config/config_parser.py:62-67 | the search returns the earliest existing candidate, or nothing exactly when none exists |
| Config.ConfigCandidate | src/config/config_parser.py:47-67 | `_find_config_file` on values. Partner lemmas: `Config.CandidateChoice`, and `Config.FirstExistingIsFirst` for the search |
| Config.CandidateChoice | src/config/config_parser.py:51-67 | a non-empty explicit file is returned, as `Path` prints it, whether or not it exists; otherwise only an existing default name is, `pipeline-config.yml` first |
| Config.Loaded | src/config/config_parser.py:69-84 | `_load_config` on values: an unreadable file, a falsy document and a non-mapping give the defaults, a mapping is merged. Partner lemmas `Config.ParseFallsBack` and `Config.ParseMerges` |
| Config.ParseFallsBack | src/config/config_parser.py:39-84 | the defaults are returned when no file is found, when it cannot be read, and when its document is empty or not a mapping |
| Config.ParseMerges | src/config/config_parser.py:76-80 | a readable mapping is merged into the defaults, and every default key stays |
| ConfigStore.MergeInto | src/config/config_parser.py:88-92 | the loop of `_deep_merge` on an unshared dictionary: both sides' keys, the merged entry at override keys, old values elsewhere |
| ConfigStore.Defaults.constructor | src/config/config_parser.py:14-29 | the class attribute starts as the DEFAULT_CONFIG literal |
| ConfigStore.Defaults.MergeSection | src/config/config_parser.py:90 | recursing into a section merges it in place, for every holder of it |
| ConfigStore.Defaults.Copy | src/config/config_parser.py:45 | `DEFAULT_CONFIG.copy()` has the same keys and holds the very same section objects, so its value equals DEFAULT_CONFIG's |
| ConfigStore.Defaults.DeepCopy | src/config/config_parser.py:45 | a deep copy has DEFAULT_CONFIG's value and shares nothing |
| ConfigStore.ConfigParser.constructor | src/config/config_parser.py:31-33 | a parser keeps the repository path and the optional explicit file |
| ConfigStore.ConfigParser.FindConfigFile | src/config/config_parser.py:47-67 | the first-match loop returns the reference candidate |
| ConfigStore.ConfigParser.MergeKey | src/config/config_parser.py:89-92 | one loop round: a shared section meeting a dictionary is merged in place, an owned dictionary is merged, anything else is rebound |
| ConfigStore.ConfigParser.DeepMerge | src/config/config_parser.py:86-92 | the loop visits every override key once, in some order, and leaves the sections and the copy as that order's fold |
| ConfigStore.SlotsAfterByKey | src/config/config_parser.py:88-92 | whatever the order, each visited key ends in its final slot and the others keep theirs |
| ConfigStore.SectionsAfterByKey | src/config/config_parser.py:88-92 | whatever the order, each shared section met by a dictionary is merged exactly once and every other section is unchanged |
| ConfigStore.SlotValue | src/config/config_parser.py:89-92 | the final value at an override key is its merged entry |
| ConfigStore.ValuesAfterMerge | src/config/config_parser.py:86-92 | after the loop, in any order, the copy's value is the merge of the override into its old value |
| ConfigStore.SectionsAfterCopy | src/config/config_parser.py:76-78 | merging into a full shallow copy changes DEFAULT_CONFIG by the shared effect: every section met by a dictionary is merged |
| ConfigStore.SharedEffectLeaks | src/config/config_parser.py:76-78 | DEFAULT_CONFIG changes exactly at the sections where the merge recursed, and there it equals the returned configuration |
| ConfigStore.SharedEffectEmpty | src/config/config_parser.py:77-78 | an empty override writes nothing into DEFAULT_CONFIG |
| ConfigStore.ParseIsMerge | src/config/config_parser.py:35-45 | `parse` is the merge of the applied document, or of nothing, into the defaults |
| ConfigStore.ConfigParser.LoadConfig | src/config/config_parser.py:69-84 | the returned configuration is the loaded value against DEFAULT_CONFIG's old value; DEFAULT_CONFIG changes by the shared effect of the applied document |
| ConfigStore.ConfigParser.Parse | src/config/config_parser.py:35-45 | `parse` as written returns the reference `Config.Parse` of DEFAULT_CONFIG's old value and leaks the applied document into DEFAULT_CONFIG |
| ConfigStore.ConfigParser.ParseCorrected | src/config/config_parser.py:35-45 | with a deep copy, `parse` returns the reference value and leaves DEFAULT_CONFIG alone |
| ConfigStore.RenamingApplies | src/config/config_parser.py:55-65 | a repository with `pipeline-config.yml` applies that file's document |
| ConfigStore.NothingApplies | src/config/config_parser.py:62-67 | a repository without a configuration file applies nothing |
| ConfigStore.Renamed | src/config/config_parser.py:86-92 | the renaming document renames the pipeline, both in the result and in the shared defaults |
| ConfigStore.DefaultName | src/config/config_parser.py:14-16 | DEFAULT_CONFIG names the pipeline "CI/CD Pipeline" |
| ConfigStore.SharedDefaultsWitness | src/config/config_parser.py:76-78 | as written: after one parser reads a renaming file, a second parser of a repository without one also gets "My Pipeline" |
| ConfigStore.IsolatedDefaultsWitness | src/config/config_parser.py:45 | corrected: the second parser gets "CI/CD Pipeline" |
| Dashboard.Lookup | src/dashboard.py:80 | a name is found exactly when the directory lists an entry of that name |
| Dashboard.GetReport | src/dashboard.py:72-88 | every answer is 400, 404, 500 or 200; a rejected name gets 400 whatever the directory holds; a 200 carries the decoded document at that name. The full ladder is in `Dashboard.ReportOutcomes` |
| Dashboard.ReportOutcomes | src/dashboard.py:72-88 | 400 exactly for a rejected name, then 404 exactly for a missing path, then 500 exactly for undecodable or vanished content, then 200 with the decoded document; directories and other read errors escape |
| Dashboard.DoubleDotNameRejected | src/dashboard.py:75-76 | "a..b.json" is rejected although it stays inside the reports directory |
| Dashboard.RejectionIgnoresDirectory | src/dashboard.py:75-78 | the guard runs before any file access: a rejected name gets the same answer whatever the directory holds |
| Dashboard.AcceptedNameIsOneComponent | src/dashboard.py:75-78 | an accepted name other than the directory itself is not "..", and joined to the reports directory it has exactly one "/", right after the directory's name (under POSIX path rules; see "Left out") |
| Dashboard.ResolveIsJoin | src/dashboard.py:78 | for a separator-free name, `REPORTS_DIR / filename` is the directory itself for "" and ".", and the directory, "/" and the name otherwise, as `Resolve` says |
| Dashboard.GetReports | src/dashboard.py:50-68 | the listing loop returns the reference `ReportsBody`: an empty list without the directory, otherwise the collected summaries or the exception that ended the loop |
| Dashboard.EscapeIsFinal | src/dashboard.py:56-66 | once the loop escapes, later entries do not matter |
| Dashboard.SummariesConcat | src/dashboard.py:56-64 | the summaries of a concatenation are the two lists of summaries joined |
| Dashboard.CollectedIsSummaries | src/dashboard.py:55-68 | the listing fails exactly when a `*.json` entry is a directory or raises past the handler; otherwise it is every readable `*.json` file's summary, in directory order |
| Dashboard.SummariesMembers | src/dashboard.py:56-64 | a listed report is a readable `*.json` file with `name` its stem and `file` its name, and every such file is listed |
| Dashboard.MissingDirectoryListsNothing | src/dashboard.py:52-53 | without the reports directory the list is empty |
| Dashboard.UnreadableSkipped | src/dashboard.py:65-66 | an undecodable or vanished file is skipped: removing it changes nothing in the listing |

## Left out

- Subprocesses (`trivy`, `snyk`, their version probes and their 120 s and 180 s timeouts) are not run. Each invocation is a `Call` value holding what it answers. Their exception texts are strings given with the call.
- Values.PyError.Text: `str(e)` of a TypeError or AttributeError raised while counting issues (line 90 of security_scanner.py) is not modelled. The class name stands for it, while Python's message reads e.g. "object of type 'NoneType' has no len()".
- Python's `re` engine (IGNORECASE, `\s`, character classes, non-overlapping `finditer`): the matcher is a parameter. `FindingCode` assumes only that each reported match is the text at its start offset.
- JSON and YAML decoding: documents arrive decoded, or marked undecodable. Floats, YAML's non-string keys and dictionary key order are not modelled. `DeepMerge`'s `order` stands for whatever order `dict.items()` yields.
- The filesystem and `os.walk`: the tree is a list of entries, and existence is a set of paths. `UnicodeDecodeError` in SAST is not modelled, because the file is opened with `errors='ignore'`.
- RepoAnalyzer.Analyze, SecurityScanner.Dispatch, SecurityScanner.TrivyScan: `HasDockerfile` (for `_has_dockerfile` and the check in `_run_trivy`) is true for a root file named `Dockerfile`. A directory of that name, which `Path.exists` also accepts, is not modelled, because the walk lists files only.
- SecurityScanner.RunScans: a SAST report write that raises after creating the file leaves a partial `sast-report.json` on disk. The model records no report for it.
- SecurityScanner.SnykScan: a `f.write(result.stdout)` that raises after `open` created or truncated `snyk-report.json` (security_scanner.py:128-129) leaves an empty or partial file on disk, and `_run_snyk` returns an error result. The model records no report for that case (`WriteRaised`); its "written" clause covers only completed writes.
- Dashboard.AcceptedNameIsOneComponent: paths follow POSIX rules (`Paths.Join` is `PurePosixPath`'s join). Under Windows pathlib a drive-qualified name such as `C:x.json` contains no `..`, `/` or `\`, so the guard at dashboard.py:75 accepts it, and `REPORTS_DIR / "C:x.json"` leaves the reports directory. The one-component property holds for PurePosixPath only; Windows drive and UNC semantics are not modelled.
- `SecurityScanner.RunScans`: results are an association list in insertion order, standing for the Python dict.
- The `print` warning in `_load_config` (output only).
- ConfigStore.ConfigParser.DeepMerge: dictionaries below a configuration section are modelled as values, so an in-place update is taken to equal replacing them by the merged value. YAML anchors and aliases break this, because `yaml.safe_load` builds one object for an anchor and all its aliases. Example: one parser's document has `pipeline: {extra: &x {k: 1}}` and `security: {extra: *x}`, and a later parser merges `pipeline: {extra: {k: 2}}`. Python then also changes `security.extra.k` to 2 in the leaked defaults, while the model keeps it at 1. More generally, aliasing of nested dictionaries, between themselves or between the document and the result, is not modelled.
- Paths.PathStr: pathlib's normal form is modelled for POSIX paths only (roots "/" and "//", empty and "." components dropped). `..` is kept as pathlib keeps it; symlinks, `resolve()` and Windows drives are not modelled.
- Flask and CORS wiring, `jsonify`, the HTML index page, `/health` and `app.run` with its environment switches: HTTP plumbing. An uncaught exception in a view is returned as `Unhandled`, and Flask's own 500 page is not modelled.
- The pipeline template selector and renderer: `src/generators/pipeline_generator.py` is not part of this model.
- `setup.py` (packaging) and `dev_test.py` (a print script): no logic.

## Findings

| source | as written | input that shows it | evidently intended | confidence | as-written member | corrected member |
|---|---|---|---|---|---|---|
| src/config/config_parser.py:76 | `DEFAULT_CONFIG.copy()` is shallow, so `_deep_merge` recurses into the class attribute's own section dictionaries and changes DEFAULT_CONFIG for every later parser | parser 1 on a repository whose `pipeline-config.yml` is `pipeline: {name: My Pipeline}`, then parser 2 on a repository with no configuration file: parser 2's `pipeline.name` is "My Pipeline" | every parse starts from the literal defaults, e.g. by `copy.deepcopy(DEFAULT_CONFIG)`, so parser 2 gets "CI/CD Pipeline" | high; not executed | ConfigStore.SharedDefaultsWitness | ConfigStore.IsolatedDefaultsWitness |
