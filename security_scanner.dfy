/**
 * SecurityScanner: runs the requested scanners one after another and gathers one
 * result per scanner name. Trivy and Snyk are external tools, seen here only
 * through what they answer; SAST is a walk over the repository's Python files
 * with a fixed table of regular-expression rules.
 */
module SecurityScanner {
  import opened Outcomes
  import opened Values
  import opened Paths
  import opened RepoTree

  // ---------------------------------------------------------------------------
  // Results

  datatype Status = Success | Skipped | Error | Unknown

  /** One scanner's dictionary: 'status', and 'message', 'issues_found', 'report_file' when present. */
  datatype ScanResult = ScanResult(status: Status, message: Option<string>, issuesFound: Option<nat>, reportFile: Option<string>)

  function Skip(message: string): ScanResult {
    ScanResult(Skipped, Some(message), Some(0), None)
  }

  function Failed(message: string): ScanResult {
    ScanResult(Error, Some(message), Some(0), None)
  }

  function Succeeded(issues: nat, reportFile: string): ScanResult {
    ScanResult(Success, None, Some(issues), Some(reportFile))
  }

  function UnknownScanner(name: string): ScanResult {
    ScanResult(Unknown, Some("Unknown scanner: " + name), None, None)
  }

  // ---------------------------------------------------------------------------
  // What the outside world answers to one scanner invocation

  /** `subprocess.run([tool, '--version'], check=True)`: CalledProcessError and FileNotFoundError are caught, anything else escapes. */
  datatype Probe = ProbeOk | ProbeFailed | ProbeRaised(exception: string)

  /** What `trivy config` left at the report path: nothing, text `json.load` rejects, or a document. */
  datatype TrivyReport = ReportAbsent | ReportUndecodable(exception: string) | ReportDecoded(data: Value)

  /** The `trivy config` run itself: it raises (timeout after 120 s, ...) or finishes. */
  datatype TrivyRun = TrivyRaised(exception: string) | TrivyFinished(report: TrivyReport)

  /** Opening and writing a file. */
  datatype WriteOutcome = WriteOk | WriteRaised(exception: string)

  /** The `snyk test --json` run: it raises (timeout after 180 s, ...) or prints `stdout`, which `json.loads` decodes or not. */
  datatype SnykRun = SnykRaised(exception: string) | SnykFinished(stdout: string, write: WriteOutcome, decoded: Option<Value>)

  /** Everything external that the invocation of one requested scanner observes. */
  datatype Call = Call(
    trivyProbe: Probe, trivyRun: TrivyRun,
    snykToken: Option<string>, snykProbe: Probe, snykRun: SnykRun,
    sastWrite: WriteOutcome)

  /** An exception that leaves `run_scans`, aborting it. */
  datatype Escape = Escape(exception: string)

  // ---------------------------------------------------------------------------
  // SAST rules and findings

  datatype Category = HardcodedSecrets | SqlInjection | CommandInjection {
    function Name(): string {
      match this
      case HardcodedSecrets => "hardcoded_secrets"
      case SqlInjection => "sql_injection"
      case CommandInjection => "command_injection"
    }
  }

  datatype Rule = Rule(category: Category, pattern: string, description: string)

  /** The pattern table of `_run_sast`, flattened in the order it is iterated. */
  const Rules: seq<Rule> := [
    Rule(HardcodedSecrets, @"password\s*=\s*[""\'][^""\']+[""\']", "Potential hardcoded password"),
    Rule(HardcodedSecrets, @"api_key\s*=\s*[""\'][^""\']+[""\']", "Potential hardcoded API key"),
    Rule(HardcodedSecrets, @"secret\s*=\s*[""\'][^""\']+[""\']", "Potential hardcoded secret"),
    Rule(HardcodedSecrets, @"token\s*=\s*[""\'][^""\']+[""\']", "Potential hardcoded token"),
    Rule(SqlInjection, @"execute\s*\(\s*[""\'].*%s.*[""\']", "Potential SQL injection"),
    Rule(SqlInjection, @"\.format\s*\(.*SELECT.*\)", "Potential SQL injection via format"),
    Rule(CommandInjection, @"os\.system\s*\(", "Use of os.system (potential command injection)"),
    Rule(CommandInjection, @"subprocess\.call\s*\(.*shell\s*=\s*True", "subprocess with shell=True")
  ]

  /** One match of `re.finditer`: its start offset and `match.group(0)`. */
  datatype Match = Match(start: nat, text: string)

  /** The regular-expression engine: `re.finditer(pattern, content, re.IGNORECASE)`. */
  type Matcher = (string, string) -> seq<Match>

  /** Every match the engine reports is the text found at its start offset. */
  ghost predicate MatcherSound(matcher: Matcher) {
    forall pattern, content, k :: 0 <= k < |matcher(pattern, content)| ==>
      OccursAt(content, matcher(pattern, content)[k].text, matcher(pattern, content)[k].start)
  }

  /** One entry of the SAST report. */
  datatype Finding = Finding(file: string, line: nat, category: Category, description: string, code: string)

  // ---------------------------------------------------------------------------
  // Reports written by the code, and what one scanner produces

  /** The body of a report file: the tool output as printed, or SAST's `{'issues': [...]}`. */
  datatype Report = RawOutput(text: string) | SastIssues(issues: seq<Finding>)

  /** A scanner's result and the report file the code itself wrote, if any. */
  datatype Scan = Scan(result: ScanResult, written: Option<(string, Report)>)

  // ---------------------------------------------------------------------------
  // `SecurityScanner.__init__`

  datatype Scanner = Scanner(repoPath: string, entries: seq<WalkEntry>)

  /** The constructor refuses a repository path that does not exist. */
  function NewScanner(repoPath: string, pathExists: bool, entries: seq<WalkEntry>): (r: Result<Scanner, string>)
    ensures r.Ok? <==> pathExists
    ensures r.Ok? ==> r.value.repoPath == repoPath && r.value.entries == entries
    ensures r.Err? ==> r.error == "Repository path does not exist: " + repoPath
  {
    if pathExists then Ok(Scanner(repoPath, entries)) else Err("Repository path does not exist: " + repoPath)
  }

  // ---------------------------------------------------------------------------
  // Trivy

  /** `len(result.get('Vulnerabilities', []))` for one element of `data['Results']`. */
  function VulnerabilityCount(item: Value): Result<nat, PyError> {
    match Get(item, "Vulnerabilities", List([]))
    case Err(e) => Err(e)
    case Ok(v) => Len(v)
  }

  /** The `issues +=` loop over a list of results; the first exception wins. */
  function VulnerabilityTotal(items: seq<Value>): Result<nat, PyError>
    decreases |items|
  {
    if items == [] then Ok(0)
    else match VulnerabilityTotal(items[..|items| - 1])
      case Err(e) => Err(e)
      case Ok(n) =>
        match VulnerabilityCount(items[|items| - 1])
        case Err(e) => Err(e)
        case Ok(c) => Ok(n + c)
  }

  /** `for result in data['Results']` over something that is not a list. */
  function NonListTotal(results: Value): Result<nat, PyError> {
    match results
    case Dict(fields) => if fields == map[] then Ok(0) else Err(AttributeError)  // iterating yields str keys
    case Str(s) => if s == "" then Ok(0) else Err(AttributeError)  // iterating yields one-character strs
    case _ => Err(TypeError)  // not iterable
  }

  function ResultsTotal(results: Value): Result<nat, PyError> {
    if results.List? then VulnerabilityTotal(results.items) else NonListTotal(results)
  }

  /** Lines 73-80 on a decoded report: `'Results' in data`, then the loop. */
  function TrivyIssues(data: Value): Result<nat, PyError> {
    match data
    case Dict(fields) => if "Results" in fields then ResultsTotal(fields["Results"]) else Ok(0)
    case List(items) => if Str("Results") in items then Err(TypeError) else Ok(0)  // list['Results']
    case Str(s) => if HasSubstring(s, "Results") then Err(TypeError) else Ok(0)  // str['Results']
    case _ => Err(TypeError)  // `in` on a number, a bool or None
  }

  /** `_run_trivy` */
  function TrivyScan(hasDockerfile: bool, call: Call, outDir: string): Result<Scan, Escape> {
    if !hasDockerfile then Ok(Scan(Skip("No Dockerfile found"), None))
    else match call.trivyProbe
      case ProbeFailed => Ok(Scan(Failed("Trivy not installed"), None))
      case ProbeRaised(x) => Err(Escape(x))
      case ProbeOk =>
        match call.trivyRun
        case TrivyRaised(x) => Ok(Scan(Failed(x), None))
        case TrivyFinished(ReportAbsent) => Ok(Scan(Succeeded(0, Join(outDir, "trivy-report.json")), None))
        case TrivyFinished(ReportUndecodable(x)) => Ok(Scan(Failed(x), None))
        case TrivyFinished(ReportDecoded(data)) =>
          match TrivyIssues(data)
          case Err(e) => Ok(Scan(Failed(e.Text()), None))
          case Ok(n) => Ok(Scan(Succeeded(n, Join(outDir, "trivy-report.json")), None))
  }

  /** Lines 73-80: count the vulnerabilities of a decoded Trivy report. */
  method CountTrivyIssues(data: Value) returns (r: Result<nat, PyError>)
    ensures r == TrivyIssues(data)
  {
    if !data.Dict? || "Results" !in data.fields || !data.fields["Results"].List? {
      return TrivyIssues(data);
    }
    var items := data.fields["Results"].items;
    var issues := 0;
    for i := 0 to |items|
      invariant VulnerabilityTotal(items[..i]) == Ok(issues)
    {
      assert items[..i + 1][..i] == items[..i];
      match VulnerabilityCount(items[i]) {
        case Err(e) =>
          VulnerabilityTotalError(items, i + 1, e);
          return Err(e);
        case Ok(c) =>
          issues := issues + c;
      }
    }
    assert items[..|items|] == items;
    r := Ok(issues);
  }

  /** An exception in the first `k` results is the exception of the whole loop. */
  lemma {:induction false} VulnerabilityTotalError(items: seq<Value>, k: nat, e: PyError)
    requires k <= |items| && VulnerabilityTotal(items[..k]) == Err(e)
    ensures VulnerabilityTotal(items) == Err(e)
    decreases |items| - k
  {
    if k < |items| {
      assert items[..k + 1][..k] == items[..k];
      VulnerabilityTotalError(items, k + 1, e);
    } else {
      assert items[..k] == items;
    }
  }

  /** `_run_trivy` */
  method RunTrivy(hasDockerfile: bool, call: Call, outDir: string) returns (r: Result<Scan, Escape>)
    ensures r == TrivyScan(hasDockerfile, call, outDir)
  {
    if !hasDockerfile {
      return Ok(Scan(Skip("No Dockerfile found"), None));
    }
    match call.trivyProbe {
      case ProbeFailed => return Ok(Scan(Failed("Trivy not installed"), None));
      case ProbeRaised(x) => return Err(Escape(x));
      case ProbeOk =>
    }
    var outputFile := Join(outDir, "trivy-report.json");
    match call.trivyRun {
      case TrivyRaised(x) => return Ok(Scan(Failed(x), None));
      case TrivyFinished(report) =>
        var issues := 0;
        match report {
          case ReportAbsent =>
          case ReportUndecodable(x) => return Ok(Scan(Failed(x), None));
          case ReportDecoded(data) =>
            var counted := CountTrivyIssues(data);
            match counted {
              case Err(e) => return Ok(Scan(Failed(e.Text()), None));
              case Ok(n) => issues := n;
            }
        }
        r := Ok(Scan(Succeeded(issues, outputFile), None));
    }
  }

  // ---------------------------------------------------------------------------
  // Snyk

  /** `len(data.get('vulnerabilities', []))` */
  function SnykIssues(data: Value): Result<nat, PyError> {
    match Get(data, "vulnerabilities", List([]))
    case Err(e) => Err(e)
    case Ok(v) => Len(v)
  }

  /** `_run_snyk` */
  function SnykScan(call: Call, outDir: string): (r: Result<Scan, Escape>)
    ensures r.Err? <==> call.snykToken.Some? && call.snykToken.value != "" && call.snykProbe.ProbeRaised?
    ensures r.Ok? ==> CountedResult(r.value.result)
    ensures r.Ok? && r.value.written.Some? ==>
      call.snykRun.SnykFinished? && r.value.written == Some((Join(outDir, "snyk-report.json"), RawOutput(call.snykRun.stdout)))
    ensures r.Ok? ==> (r.value.written.Some? <==>
      call.snykToken.Some? && call.snykToken.value != "" && call.snykProbe.ProbeOk? && call.snykRun.SnykFinished? && call.snykRun.write.WriteOk?)
  {
    if call.snykToken.None? || call.snykToken.value == "" then
      Ok(Scan(Skip("SNYK_TOKEN environment variable not set"), None))
    else match call.snykProbe
      case ProbeFailed => Ok(Scan(Failed("Snyk CLI not installed"), None))
      case ProbeRaised(x) => Err(Escape(x))
      case ProbeOk =>
        match call.snykRun
        case SnykRaised(x) => Ok(Scan(Failed(x), None))
        case SnykFinished(stdout, WriteRaised(x), _) => Ok(Scan(Failed(x), None))
        case SnykFinished(stdout, WriteOk, decoded) =>
          var outputFile := Join(outDir, "snyk-report.json");
          var written := Some((outputFile, RawOutput(stdout)));
          match decoded
          case None => Ok(Scan(Succeeded(0, outputFile), written))
          case Some(data) =>
            match SnykIssues(data)
            case Err(e) => Ok(Scan(Failed(e.Text()), written))
            case Ok(n) => Ok(Scan(Succeeded(n, outputFile), written))
  }

  // ---------------------------------------------------------------------------
  // SAST

  /** The directory names `dirs[:] = ...` removes from the walk. */
  const ExcludedDirs: set<string> := {".git", "node_modules", "venv", "__pycache__"}

  /** The walk never enters a directory whose name is excluded, at any depth. */
  predicate Pruned(dir: seq<string>) {
    exists i :: 0 <= i < |dir| && dir[i] in ExcludedDirs
  }

  /** A walked file whose content SAST matches against the rules. */
  predicate Scanned(e: WalkEntry) {
    !Pruned(e.dir) && EndsWith(e.name, ".py") && e.content.Some?
  }

  /** `str(Path(file_path).relative_to(repo_path))` */
  function RelPath(e: WalkEntry): string {
    JoinAll(e.dir + [e.name])
  }

  /** `content[:start].count('\n') + 1`; slicing stops at the end of the content. */
  function LineOf(content: string, start: nat): nat {
    CountChar(content[..if start <= |content| then start else |content|], '\n') + 1
  }

  function MakeFinding(file: string, content: string, rule: Rule, m: Match): Finding {
    Finding(file, LineOf(content, m.start), rule.category, rule.description, m.text)
  }

  /** One finding per match, in match order. */
  function MatchFindings(file: string, content: string, rule: Rule, ms: seq<Match>): seq<Finding>
    decreases |ms|
  {
    if ms == [] then []
    else MatchFindings(file, content, rule, ms[..|ms| - 1]) + [MakeFinding(file, content, rule, ms[|ms| - 1])]
  }

  /** The findings of the rules in `rules`, rule by rule. */
  function RuleFindings(file: string, content: string, rules: seq<Rule>, matcher: Matcher): seq<Finding>
    decreases |rules|
  {
    if rules == [] then []
    else
      var rule := rules[|rules| - 1];
      RuleFindings(file, content, rules[..|rules| - 1], matcher)
        + MatchFindings(file, content, rule, matcher(rule.pattern, content))
  }

  function EntryFindings(e: WalkEntry, matcher: Matcher): seq<Finding> {
    if Scanned(e) then RuleFindings(RelPath(e), e.content.value, Rules, matcher) else []
  }

  /** The `issues` list of `_run_sast`, file by file in walk order. */
  function SastFindings(entries: seq<WalkEntry>, matcher: Matcher): seq<Finding>
    decreases |entries|
  {
    if entries == [] then []
    else SastFindings(entries[..|entries| - 1], matcher) + EntryFindings(entries[|entries| - 1], matcher)
  }

  /** `_run_sast`: the report is written outside any `try`, so a failed write escapes. */
  function SastScan(entries: seq<WalkEntry>, call: Call, outDir: string, matcher: Matcher): Result<Scan, Escape> {
    var issues := SastFindings(entries, matcher);
    var outputFile := Join(outDir, "sast-report.json");
    match call.sastWrite
    case WriteRaised(x) => Err(Escape(x))
    case WriteOk => Ok(Scan(Succeeded(|issues|, outputFile), Some((outputFile, SastIssues(issues)))))
  }

  /** Lines 186-198 for one file: every rule, every match, one appended finding each. */
  method AppendFileFindings(issues: seq<Finding>, file: string, content: string, matcher: Matcher) returns (out: seq<Finding>)
    ensures out == issues + RuleFindings(file, content, Rules, matcher)
  {
    out := issues;
    for j := 0 to |Rules|
      invariant out == issues + RuleFindings(file, content, Rules[..j], matcher)
    {
      assert Rules[..j + 1][..j] == Rules[..j];
      out := AppendMatchFindings(out, file, content, Rules[j], matcher(Rules[j].pattern, content));
    }
    assert Rules[..|Rules|] == Rules;
  }

  /** Lines 191-198 for one rule: one appended finding per match, in match order. */
  method AppendMatchFindings(issues: seq<Finding>, file: string, content: string, rule: Rule, ms: seq<Match>) returns (out: seq<Finding>)
    ensures out == issues + MatchFindings(file, content, rule, ms)
  {
    out := issues;
    for k := 0 to |ms|
      invariant out == issues + MatchFindings(file, content, rule, ms[..k])
    {
      assert ms[..k + 1][..k] == ms[..k];
      var line := CountChar(content[..if ms[k].start <= |content| then ms[k].start else |content|], '\n') + 1;
      out := out + [Finding(file, line, rule.category, rule.description, ms[k].text)];
    }
    assert ms[..|ms|] == ms;
  }

  /** `_run_sast`: the pruned walk over `.py` files, then the report. */
  method RunSast(entries: seq<WalkEntry>, call: Call, outDir: string, matcher: Matcher) returns (r: Result<Scan, Escape>)
    ensures r == SastScan(entries, call, outDir, matcher)
  {
    var issues: seq<Finding> := [];
    for i := 0 to |entries|
      invariant issues == SastFindings(entries[..i], matcher)
    {
      assert entries[..i + 1][..i] == entries[..i];
      var e := entries[i];
      if !Pruned(e.dir) && EndsWith(e.name, ".py") {
        match e.content {
          case None =>  // OSError while reading: skip the file
          case Some(content) =>
            issues := AppendFileFindings(issues, RelPath(e), content, matcher);
        }
      }
    }
    assert entries[..|entries|] == entries;
    var outputFile := Join(outDir, "sast-report.json");
    match call.sastWrite {
      case WriteRaised(x) => r := Err(Escape(x));
      case WriteOk => r := Ok(Scan(Succeeded(|issues|, outputFile), Some((outputFile, SastIssues(issues)))));
    }
  }

  // ---------------------------------------------------------------------------
  // `run_scans`

  /** The scanner names that dispatch to a procedure of their own. */
  predicate KnownScanner(name: string) {
    name == "trivy" || name == "snyk" || name == "sast"
  }

  /** The `if`/`elif` chain of `run_scans` for one requested name. */
  function Dispatch(scanner: Scanner, name: string, call: Call, outDir: string, matcher: Matcher): Result<Scan, Escape> {
    if name == "trivy" then TrivyScan(HasDockerfile(scanner.entries), call, outDir)
    else if name == "snyk" then SnykScan(call, outDir)
    else if name == "sast" then SastScan(scanner.entries, call, outDir, matcher)
    else Ok(Scan(UnknownScanner(name), None))
  }

  /** The results dictionary: keys in insertion order, each with its value. */
  type Results = seq<(string, ScanResult)>

  /** `results[key] = value`: an existing key keeps its place, a new key goes last. */
  function Put(rs: Results, key: string, value: ScanResult): Results
    decreases |rs|
  {
    if rs == [] then [(key, value)]
    else if rs[0].0 == key then [(key, value)] + rs[1..]
    else [rs[0]] + Put(rs[1..], key, value)
  }

  function Keys(rs: Results): seq<string>
    decreases |rs|
  {
    if rs == [] then [] else [rs[0].0] + Keys(rs[1..])
  }

  function Lookup(rs: Results, key: string): Option<ScanResult>
    decreases |rs|
  {
    if rs == [] then None else if rs[0].0 == key then Some(rs[0].1) else Lookup(rs[1..], key)
  }

  /** The output directory after the code wrote the reports it writes itself. */
  type Files = map<string, Report>

  function Record(files: Files, written: Option<(string, Report)>): Files {
    match written
    case None => files
    case Some((path, report)) => files[path := report]
  }

  datatype Run = Run(results: Results, files: Files)

  /** An escape out of `run_scans`, with the reports already on disk when it happened. */
  datatype Abort = Abort(escape: Escape, files: Files)

  /** The loop of `run_scans` over the first names; invocation `j` observes `calls(j)`. */
  function RunLoop(scanner: Scanner, names: seq<string>, calls: nat -> Call, outDir: string, matcher: Matcher): Result<Run, Abort>
    decreases |names|
  {
    if names == [] then Ok(Run([], map[]))
    else
      var n := |names| - 1;
      match RunLoop(scanner, names[..n], calls, outDir, matcher)
      case Err(x) => Err(x)
      case Ok(run) =>
        match Dispatch(scanner, names[n], calls(n), outDir, matcher)
        case Err(x) => Err(Abort(x, run.files))
        case Ok(scan) => Ok(Run(Put(run.results, names[n], scan.result), Record(run.files, scan.written)))
  }

  /** `run_scans`: create the output directory (an error there escapes), then the loop. */
  function RunScansSpec(scanner: Scanner, names: seq<string>, calls: nat -> Call, outDir: string, mkdir: WriteOutcome, matcher: Matcher): Result<Run, Abort> {
    match mkdir
    case WriteRaised(x) => Err(Abort(Escape(x), map[]))
    case WriteOk => RunLoop(scanner, names, calls, outDir, matcher)
  }

  /** `run_scans` */
  method RunScans(scanner: Scanner, names: seq<string>, calls: nat -> Call, outDir: string, mkdir: WriteOutcome, matcher: Matcher)
    returns (r: Result<Run, Abort>)
    ensures r == RunScansSpec(scanner, names, calls, outDir, mkdir, matcher)
  {
    if mkdir.WriteRaised? {
      return Err(Abort(Escape(mkdir.exception), map[]));
    }
    var results: Results := [];
    var files: Files := map[];
    for i := 0 to |names|
      invariant RunLoop(scanner, names[..i], calls, outDir, matcher) == Ok(Run(results, files))
    {
      assert names[..i + 1][..i] == names[..i];
      var name := names[i];
      var scan: Result<Scan, Escape>;
      if name == "trivy" {
        scan := RunTrivy(HasDockerfile(scanner.entries), calls(i), outDir);
      } else if name == "snyk" {
        scan := SnykScan(calls(i), outDir);
      } else if name == "sast" {
        scan := RunSast(scanner.entries, calls(i), outDir, matcher);
      } else {
        scan := Ok(Scan(UnknownScanner(name), None));
      }
      if scan.Err? {
        RunLoopEscape(scanner, names, calls, outDir, matcher, i + 1, Abort(scan.error, files));
        return Err(Abort(scan.error, files));
      }
      results := Put(results, name, scan.value.result);
      files := Record(files, scan.value.written);
    }
    assert names[..|names|] == names;
    r := Ok(Run(results, files));
  }

  /** Once an invocation escapes, the whole run escapes with it. */
  lemma {:induction false} RunLoopEscape(scanner: Scanner, names: seq<string>, calls: nat -> Call, outDir: string, matcher: Matcher, k: nat, x: Abort)
    requires k <= |names| && RunLoop(scanner, names[..k], calls, outDir, matcher) == Err(x)
    ensures RunLoop(scanner, names, calls, outDir, matcher) == Err(x)
    decreases |names| - k
  {
    if k < |names| {
      assert names[..k + 1][..k] == names[..k];
      RunLoopEscape(scanner, names, calls, outDir, matcher, k + 1, x);
    } else {
      assert names[..k] == names;
    }
  }
  /** An invocation that raises ends the run with the reports the earlier invocations wrote still on disk. */
  lemma AbortKeepsEarlierReports(scanner: Scanner, names: seq<string>, calls: nat -> Call, outDir: string, matcher: Matcher, k: nat)
    requires k < |names| && RunLoop(scanner, names[..k], calls, outDir, matcher).Ok?
    requires Dispatch(scanner, names[k], calls(k), outDir, matcher).Err?
    ensures RunLoop(scanner, names, calls, outDir, matcher) ==
      Err(Abort(Dispatch(scanner, names[k], calls(k), outDir, matcher).error, RunLoop(scanner, names[..k], calls, outDir, matcher).value.files))
  {
    assert names[..k + 1][..k] == names[..k];
    RunLoopEscape(scanner, names, calls, outDir, matcher, k + 1,
      Abort(Dispatch(scanner, names[k], calls(k), outDir, matcher).error, RunLoop(scanner, names[..k], calls, outDir, matcher).value.files));
  }


  // ---------------------------------------------------------------------------
  // Properties of `run_scans`

  /** The names in first-occurrence order, each once: the key order of a Python dict filled in this order. */
  function Dedup(names: seq<string>): seq<string>
    decreases |names|
  {
    if names == [] then []
    else
      var d := Dedup(names[..|names| - 1]);
      if names[|names| - 1] in d then d else d + [names[|names| - 1]]
  }

  lemma {:induction false} DedupMembers(names: seq<string>)
    ensures forall x :: x in Dedup(names) <==> x in names
    ensures forall i, j :: 0 <= i < j < |Dedup(names)| ==> Dedup(names)[i] != Dedup(names)[j]
    decreases |names|
  {
    if names != [] {
      var n := |names| - 1;
      DedupMembers(names[..n]);
      assert names == names[..n] + [names[n]];
    }
  }

  lemma {:induction false} PutKeys(rs: Results, key: string, value: ScanResult)
    ensures Keys(Put(rs, key, value)) == if key in Keys(rs) then Keys(rs) else Keys(rs) + [key]
    decreases |rs|
  {
    if rs != [] && rs[0].0 != key {
      PutKeys(rs[1..], key, value);
    }
  }

  lemma {:induction false} PutLookup(rs: Results, key: string, value: ScanResult, k: string)
    ensures Lookup(Put(rs, key, value), k) == if k == key then Some(value) else Lookup(rs, k)
    decreases |rs|
  {
    if rs != [] && rs[0].0 != key {
      PutLookup(rs[1..], key, value, k);
    }
  }

  /** One key per requested name, in the order the names were first requested. */
  lemma {:induction false} RunKeys(scanner: Scanner, names: seq<string>, calls: nat -> Call, outDir: string, matcher: Matcher)
    requires RunLoop(scanner, names, calls, outDir, matcher).Ok?
    ensures Keys(RunLoop(scanner, names, calls, outDir, matcher).value.results) == Dedup(names)
    ensures forall x :: x in Keys(RunLoop(scanner, names, calls, outDir, matcher).value.results) <==> x in names
    decreases |names|
  {
    DedupMembers(names);
    if names != [] {
      var n := |names| - 1;
      RunKeys(scanner, names[..n], calls, outDir, matcher);
      var run := RunLoop(scanner, names[..n], calls, outDir, matcher).value;
      var scan := Dispatch(scanner, names[n], calls(n), outDir, matcher).value;
      PutKeys(run.results, names[n], scan.result);
    }
  }

  /** The entry of a name is the result of its last invocation: a later duplicate overwrites an earlier one. */
  lemma {:induction false} RunLastWins(scanner: Scanner, names: seq<string>, calls: nat -> Call, outDir: string, matcher: Matcher, j: nat)
    requires RunLoop(scanner, names, calls, outDir, matcher).Ok?
    requires j < |names| && forall j' :: j < j' < |names| ==> names[j'] != names[j]
    ensures Dispatch(scanner, names[j], calls(j), outDir, matcher).Ok?
    ensures Lookup(RunLoop(scanner, names, calls, outDir, matcher).value.results, names[j])
         == Some(Dispatch(scanner, names[j], calls(j), outDir, matcher).value.result)
    decreases |names|
  {
    var n := |names| - 1;
    var run := RunLoop(scanner, names[..n], calls, outDir, matcher).value;
    var scan := Dispatch(scanner, names[n], calls(n), outDir, matcher).value;
    PutLookup(run.results, names[n], scan.result, names[j]);
    if j < n {
      assert names[..n][j] == names[j];
      RunLastWins(scanner, names[..n], calls, outDir, matcher, j);
    }
  }

  /** The run aborts exactly when some invocation raises an exception the code does not catch. */
  lemma {:induction false} RunEscapesIff(scanner: Scanner, names: seq<string>, calls: nat -> Call, outDir: string, matcher: Matcher)
    ensures RunLoop(scanner, names, calls, outDir, matcher).Ok?
        <==> forall j :: 0 <= j < |names| ==> Dispatch(scanner, names[j], calls(j), outDir, matcher).Ok?
    decreases |names|
  {
    if names != [] {
      var n := |names| - 1;
      RunEscapesIff(scanner, names[..n], calls, outDir, matcher);
      assert forall j :: 0 <= j < n ==> names[..n][j] == names[j];
    }
  }

  /** The only uncaught exceptions: a version probe failing unexpectedly, and SAST failing to write its report. */
  lemma DispatchEscapes(scanner: Scanner, name: string, call: Call, outDir: string, matcher: Matcher)
    ensures Dispatch(scanner, name, call, outDir, matcher).Err? <==>
      || (name == "trivy" && HasDockerfile(scanner.entries) && call.trivyProbe.ProbeRaised?)
      || (name == "snyk" && call.snykToken.Some? && call.snykToken.value != "" && call.snykProbe.ProbeRaised?)
      || (name == "sast" && call.sastWrite.WriteRaised?)
    ensures !KnownScanner(name) ==> Dispatch(scanner, name, call, outDir, matcher) == Ok(Scan(UnknownScanner(name), None))
  {
  }

  /** An unrecognised name is recorded as unknown, and the run goes on past it. */
  lemma UnknownNameRecorded(scanner: Scanner, names: seq<string>, calls: nat -> Call, outDir: string, matcher: Matcher, name: string)
    requires RunLoop(scanner, names, calls, outDir, matcher).Ok?
    requires name in names && !KnownScanner(name)
    ensures Lookup(RunLoop(scanner, names, calls, outDir, matcher).value.results, name) == Some(UnknownScanner(name))
  {
    LastOccurrence(names, name);
    var j :| LastAt(names, name, j);
    RunLastWins(scanner, names, calls, outDir, matcher, j);
  }

  /** `names[j]` is the last occurrence of `name`. */
  predicate LastAt(names: seq<string>, name: string, j: int) {
    0 <= j < |names| && names[j] == name && forall j' :: j < j' < |names| ==> names[j'] != name
  }

  lemma {:induction false} LastOccurrence(names: seq<string>, name: string)
    requires name in names
    ensures exists j :: LastAt(names, name, j)
    decreases |names|
  {
    var n := |names| - 1;
    if names[n] == name {
      assert LastAt(names, name, n);
    } else {
      var p := names[..n];
      assert name in p by { var i :| 0 <= i < |names| && names[i] == name; assert p[i] == name; }
      LastOccurrence(p, name);
      var j :| LastAt(p, name, j);
      forall j' | j < j' < |names| ensures names[j'] != name {
        if j' < n { assert names[j'] == p[j']; }
      }
      assert names[j] == p[j];
      assert LastAt(names, name, j);
    }
  }

  // ---------------------------------------------------------------------------
  // Properties of the Trivy and Snyk ladders

  /** Every result a tool wrapper returns carries an issue count, 0 unless the scan succeeded. */
  predicate CountedResult(r: ScanResult) {
    r.status != Unknown && r.issuesFound.Some? && (r.status != Success ==> r.issuesFound == Some(0))
      && (r.status == Success <==> r.message.None?) && (r.status == Success <==> r.reportFile.Some?)
  }

  lemma TrivyLadder(hasDockerfile: bool, call: Call, outDir: string)
    ensures !hasDockerfile ==> TrivyScan(hasDockerfile, call, outDir) == Ok(Scan(Skip("No Dockerfile found"), None))
    ensures hasDockerfile && call.trivyProbe.ProbeFailed? ==> TrivyScan(hasDockerfile, call, outDir) == Ok(Scan(Failed("Trivy not installed"), None))
    ensures hasDockerfile && call.trivyProbe.ProbeOk? && call.trivyRun.TrivyRaised? ==>
      TrivyScan(hasDockerfile, call, outDir) == Ok(Scan(Failed(call.trivyRun.exception), None))
    ensures hasDockerfile && call.trivyProbe.ProbeOk? && call.trivyRun == TrivyFinished(ReportAbsent) ==>
      TrivyScan(hasDockerfile, call, outDir) == Ok(Scan(Succeeded(0, Join(outDir, "trivy-report.json")), None))
    ensures hasDockerfile && call.trivyProbe.ProbeOk? && call.trivyRun.TrivyFinished? && call.trivyRun.report.ReportUndecodable? ==>
      TrivyScan(hasDockerfile, call, outDir) == Ok(Scan(Failed(call.trivyRun.report.exception), None))
    ensures hasDockerfile && call.trivyProbe.ProbeOk? && call.trivyRun.TrivyFinished? && call.trivyRun.report.ReportDecoded? ==>
      match TrivyIssues(call.trivyRun.report.data)
      case Ok(n) => TrivyScan(hasDockerfile, call, outDir) == Ok(Scan(Succeeded(n, Join(outDir, "trivy-report.json")), None))
      case Err(e) => TrivyScan(hasDockerfile, call, outDir) == Ok(Scan(Failed(e.Text()), None))
    ensures TrivyScan(hasDockerfile, call, outDir).Ok? ==> CountedResult(TrivyScan(hasDockerfile, call, outDir).value.result)
    ensures TrivyScan(hasDockerfile, call, outDir).Ok? ==> TrivyScan(hasDockerfile, call, outDir).value.written.None?
    ensures TrivyScan(hasDockerfile, call, outDir).Ok? && TrivyScan(hasDockerfile, call, outDir).value.result.status == Success ==>
      TrivyScan(hasDockerfile, call, outDir).value.result.reportFile == Some(Join(outDir, "trivy-report.json"))
  {
  }

  /** A result entry as Trivy writes it: a dictionary whose 'Vulnerabilities', if present, is a list. */
  predicate WellFormedResult(item: Value) {
    item.Dict? && ("Vulnerabilities" in item.fields ==> item.fields["Vulnerabilities"].List?)
  }

  /** `result.get('Vulnerabilities', [])` of a well-formed entry. */
  function VulnerabilitiesOf(item: Value): seq<Value>
    requires WellFormedResult(item)
  {
    if "Vulnerabilities" in item.fields then item.fields["Vulnerabilities"].items else []
  }

  /** The sum over the entries of the number of vulnerabilities each lists. */
  function SumVulnerabilities(items: seq<Value>): nat
    requires forall i :: 0 <= i < |items| ==> WellFormedResult(items[i])
  {
    if items == [] then 0 else |VulnerabilitiesOf(items[0])| + SumVulnerabilities(items[1..])
  }

  lemma {:induction false} SumVulnerabilitiesSnoc(items: seq<Value>)
    requires items != [] && forall i :: 0 <= i < |items| ==> WellFormedResult(items[i])
    ensures SumVulnerabilities(items) == SumVulnerabilities(items[..|items| - 1]) + |VulnerabilitiesOf(items[|items| - 1])|
    decreases |items|
  {
    if |items| > 1 {
      assert items[1..][..|items[1..]| - 1] == items[..|items| - 1][1..];
      SumVulnerabilitiesSnoc(items[1..]);
    }
  }

  /** On well-formed results the loop's count is the total number of listed vulnerabilities; a missing list counts 0. */
  lemma {:induction false} VulnerabilityTotalSums(items: seq<Value>)
    requires forall i :: 0 <= i < |items| ==> WellFormedResult(items[i])
    ensures VulnerabilityTotal(items) == Ok(SumVulnerabilities(items))
    decreases |items|
  {
    if items != [] {
      var n := |items| - 1;
      VulnerabilityTotalSums(items[..n]);
      SumVulnerabilitiesSnoc(items);
    }
  }

  /** A report whose 'Results' is a list of well-formed entries counts their vulnerabilities, whatever else it holds. */
  lemma TrivyCountsVulnerabilities(fields: map<string, Value>, items: seq<Value>)
    requires "Results" in fields && fields["Results"] == List(items)
    requires forall i :: 0 <= i < |items| ==> WellFormedResult(items[i])
    ensures TrivyIssues(Dict(fields)) == Ok(SumVulnerabilities(items))
  {
    VulnerabilityTotalSums(items);
  }

  /** With Trivy installed and a decoded report whose 'Results' lists well-formed entries, the scan succeeds with their vulnerability total. */
  lemma TrivyScanCountsVulnerabilities(call: Call, outDir: string, fields: map<string, Value>, items: seq<Value>)
    requires call.trivyProbe.ProbeOk? && call.trivyRun == TrivyFinished(ReportDecoded(Dict(fields)))
    requires "Results" in fields && fields["Results"] == List(items)
    requires forall i :: 0 <= i < |items| ==> WellFormedResult(items[i])
    ensures TrivyScan(true, call, outDir) == Ok(Scan(Succeeded(SumVulnerabilities(items), Join(outDir, "trivy-report.json")), None))
  {
    TrivyCountsVulnerabilities(fields, items);
    TrivyLadder(true, call, outDir);
  }


  /** A decoded report dictionary without 'Results' counts 0 issues (no report file at all is TrivyLadder's `ReportAbsent` case). */
  lemma TrivyNoResults(fields: map<string, Value>)
    requires "Results" !in fields
    ensures TrivyIssues(Dict(fields)) == Ok(0)
  {
  }

  /** The token is set and non-empty and `snyk --version` succeeded: `snyk test` is run. */
  predicate SnykReady(call: Call) {
    call.snykToken.Some? && call.snykToken.value != "" && call.snykProbe.ProbeOk?
  }

  lemma SnykLadder(call: Call, outDir: string)
    ensures call.snykToken.None? || call.snykToken == Some("") ==>
      SnykScan(call, outDir) == Ok(Scan(Skip("SNYK_TOKEN environment variable not set"), None))
    ensures call.snykToken.Some? && call.snykToken.value != "" && call.snykProbe.ProbeFailed? ==>
      SnykScan(call, outDir) == Ok(Scan(Failed("Snyk CLI not installed"), None))
    ensures SnykScan(call, outDir).Ok? ==> CountedResult(SnykScan(call, outDir).value.result)
    ensures SnykReady(call) && call.snykRun.SnykRaised? ==>
      SnykScan(call, outDir) == Ok(Scan(Failed(call.snykRun.exception), None))
    ensures SnykReady(call) && call.snykRun.SnykFinished? && call.snykRun.write.WriteRaised? ==>
      SnykScan(call, outDir) == Ok(Scan(Failed(call.snykRun.write.exception), None))
    ensures SnykReady(call) && call.snykRun.SnykFinished? && call.snykRun.write.WriteOk? && call.snykRun.decoded.Some? ==>
      var report := Some((Join(outDir, "snyk-report.json"), RawOutput(call.snykRun.stdout)));
      match SnykIssues(call.snykRun.decoded.value)
      case Ok(n) => SnykScan(call, outDir) == Ok(Scan(Succeeded(n, Join(outDir, "snyk-report.json")), report))
      case Err(e) => SnykScan(call, outDir) == Ok(Scan(Failed(e.Text()), report))
  {
  }

  /** After a finished run whose output was saved, the report holds the raw output whether or not it decodes. */
  lemma SnykSavesOutputBeforeParsing(call: Call, outDir: string, stdout: string, decoded: Option<Value>)
    requires call.snykToken.Some? && call.snykToken.value != "" && call.snykProbe.ProbeOk?
    requires call.snykRun == SnykFinished(stdout, WriteOk, decoded)
    ensures SnykScan(call, outDir).Ok?
    ensures SnykScan(call, outDir).value.written == Some((Join(outDir, "snyk-report.json"), RawOutput(stdout)))
    ensures decoded.None? ==> SnykScan(call, outDir).value.result == Succeeded(0, Join(outDir, "snyk-report.json"))
    ensures decoded.Some? && decoded.value.Dict? && "vulnerabilities" in decoded.value.fields && decoded.value.fields["vulnerabilities"].List? ==>
      SnykScan(call, outDir).value.result == Succeeded(|decoded.value.fields["vulnerabilities"].items|, Join(outDir, "snyk-report.json"))
    ensures decoded.Some? && decoded.value.Dict? && "vulnerabilities" !in decoded.value.fields ==>
      SnykScan(call, outDir).value.result == Succeeded(0, Join(outDir, "snyk-report.json"))
    ensures decoded.Some? && decoded.value.Dict? && "vulnerabilities" in decoded.value.fields ==>
      match Len(decoded.value.fields["vulnerabilities"])
      case Ok(n) => SnykScan(call, outDir).value.result == Succeeded(n, Join(outDir, "snyk-report.json"))
      case Err(e) => SnykScan(call, outDir).value.result == Failed(e.Text())
    ensures decoded.Some? && !decoded.value.Dict? ==> SnykScan(call, outDir).value.result == Failed(AttributeError.Text())
  {
  }

  // ---------------------------------------------------------------------------
  // Properties of SAST

  /** `f` is the finding of some rule's match in the scanned entry `e`. */
  ghost predicate FromEntry(f: Finding, e: WalkEntry, matcher: Matcher) {
    Scanned(e) &&
    exists j, k :: 0 <= j < |Rules| && 0 <= k < |matcher(Rules[j].pattern, e.content.value)| &&
      f == MakeFinding(RelPath(e), e.content.value, Rules[j], matcher(Rules[j].pattern, e.content.value)[k])
  }

  lemma {:induction false} MatchFindingsProvenance(file: string, content: string, rule: Rule, ms: seq<Match>, f: Finding)
    requires f in MatchFindings(file, content, rule, ms)
    ensures exists k :: 0 <= k < |ms| && f == MakeFinding(file, content, rule, ms[k])
    decreases |ms|
  {
    var n := |ms| - 1;
    if f != MakeFinding(file, content, rule, ms[n]) {
      MatchFindingsProvenance(file, content, rule, ms[..n], f);
      var k :| 0 <= k < n && f == MakeFinding(file, content, rule, ms[..n][k]);
      assert ms[..n][k] == ms[k];
    }
  }

  lemma {:induction false} RuleFindingsProvenance(file: string, content: string, rules: seq<Rule>, matcher: Matcher, f: Finding)
    requires f in RuleFindings(file, content, rules, matcher)
    ensures exists j, k ::
      0 <= j < |rules| && 0 <= k < |matcher(rules[j].pattern, content)| &&
      f == MakeFinding(file, content, rules[j], matcher(rules[j].pattern, content)[k])
    decreases |rules|
  {
    var n := |rules| - 1;
    var rule := rules[n];
    if f in MatchFindings(file, content, rule, matcher(rule.pattern, content)) {
      MatchFindingsProvenance(file, content, rule, matcher(rule.pattern, content), f);
    } else {
      RuleFindingsProvenance(file, content, rules[..n], matcher, f);
      var j, k :| 0 <= j < n && 0 <= k < |matcher(rules[..n][j].pattern, content)| &&
        f == MakeFinding(file, content, rules[..n][j], matcher(rules[..n][j].pattern, content)[k]);
      assert rules[..n][j] == rules[j];
    }
  }

  /** Every finding comes from a rule's match in a scanned file: a `.py` name, outside pruned directories, readable. */
  lemma {:induction false} SastProvenance(entries: seq<WalkEntry>, matcher: Matcher, f: Finding)
    requires f in SastFindings(entries, matcher)
    ensures exists i :: 0 <= i < |entries| && FromEntry(f, entries[i], matcher)
    decreases |entries|
  {
    var n := |entries| - 1;
    var e := entries[n];
    if f in EntryFindings(e, matcher) {
      RuleFindingsProvenance(RelPath(e), e.content.value, Rules, matcher, f);
    } else {
      SastProvenance(entries[..n], matcher, f);
      var i :| 0 <= i < n && FromEntry(f, entries[..n][i], matcher);
      assert entries[..n][i] == entries[i];
    }
  }
  /** Every match of a rule yields its finding. */
  lemma {:induction false} MatchFindingsComplete(file: string, content: string, rule: Rule, ms: seq<Match>, k: nat)
    requires k < |ms|
    ensures MakeFinding(file, content, rule, ms[k]) in MatchFindings(file, content, rule, ms)
    decreases |ms|
  {
    var n := |ms| - 1;
    if k < n {
      MatchFindingsComplete(file, content, rule, ms[..n], k);
      assert ms[..n][k] == ms[k];
    }
  }

  /** Every match of every rule in the table yields its finding. */
  lemma {:induction false} RuleFindingsComplete(file: string, content: string, rules: seq<Rule>, matcher: Matcher, j: nat, k: nat)
    requires j < |rules| && k < |matcher(rules[j].pattern, content)|
    ensures MakeFinding(file, content, rules[j], matcher(rules[j].pattern, content)[k]) in RuleFindings(file, content, rules, matcher)
    decreases |rules|
  {
    var n := |rules| - 1;
    if j == n {
      MatchFindingsComplete(file, content, rules[j], matcher(rules[j].pattern, content), k);
    } else {
      assert rules[..n][j] == rules[j];
      RuleFindingsComplete(file, content, rules[..n], matcher, j, k);
    }
  }

  /** Every match of every rule in every scanned file lands in the report. */
  lemma {:induction false} SastComplete(entries: seq<WalkEntry>, matcher: Matcher, i: nat, f: Finding)
    requires i < |entries| && FromEntry(f, entries[i], matcher)
    ensures f in SastFindings(entries, matcher)
    decreases |entries|
  {
    var n := |entries| - 1;
    var e := entries[i];
    if i == n {
      var j, k :| 0 <= j < |Rules| && 0 <= k < |matcher(Rules[j].pattern, e.content.value)| &&
        f == MakeFinding(RelPath(e), e.content.value, Rules[j], matcher(Rules[j].pattern, e.content.value)[k]);
      RuleFindingsComplete(RelPath(e), e.content.value, Rules, matcher, j, k);
    } else {
      assert entries[..n][i] == e;
      SastComplete(entries[..n], matcher, i, f);
    }
  }

  /** The report holds exactly the findings of the rules' matches in the scanned files. */
  lemma SastFindingsExactly(entries: seq<WalkEntry>, matcher: Matcher, f: Finding)
    ensures f in SastFindings(entries, matcher) <==> exists i :: 0 <= i < |entries| && FromEntry(f, entries[i], matcher)
  {
    forall i | 0 <= i < |entries| && FromEntry(f, entries[i], matcher) ensures f in SastFindings(entries, matcher) {
      SastComplete(entries, matcher, i, f);
    }
    if f in SastFindings(entries, matcher) {
      SastProvenance(entries, matcher, f);
    }
  }

  /** The number of matches of the rules in `rules`. */
  function RuleMatchCount(content: string, rules: seq<Rule>, matcher: Matcher): nat
    decreases |rules|
  {
    if rules == [] then 0
    else RuleMatchCount(content, rules[..|rules| - 1], matcher) + |matcher(rules[|rules| - 1].pattern, content)|
  }

  /** The number of matches over the scanned files of a walk. */
  function SastMatchCount(entries: seq<WalkEntry>, matcher: Matcher): nat
    decreases |entries|
  {
    if entries == [] then 0
    else
      var e := entries[|entries| - 1];
      SastMatchCount(entries[..|entries| - 1], matcher) + (if Scanned(e) then RuleMatchCount(e.content.value, Rules, matcher) else 0)
  }

  lemma {:induction false} MatchFindingsLength(file: string, content: string, rule: Rule, ms: seq<Match>)
    ensures |MatchFindings(file, content, rule, ms)| == |ms|
    decreases |ms|
  {
    if ms != [] {
      MatchFindingsLength(file, content, rule, ms[..|ms| - 1]);
    }
  }

  lemma {:induction false} RuleFindingsLength(file: string, content: string, rules: seq<Rule>, matcher: Matcher)
    ensures |RuleFindings(file, content, rules, matcher)| == RuleMatchCount(content, rules, matcher)
    decreases |rules|
  {
    if rules != [] {
      var rule := rules[|rules| - 1];
      RuleFindingsLength(file, content, rules[..|rules| - 1], matcher);
      MatchFindingsLength(file, content, rule, matcher(rule.pattern, content));
    }
  }

  /** `issues_found` of SAST is the total number of matches: one finding per match, none dropped, none added. */
  lemma {:induction false} SastCountsMatches(entries: seq<WalkEntry>, matcher: Matcher)
    ensures |SastFindings(entries, matcher)| == SastMatchCount(entries, matcher)
    decreases |entries|
  {
    if entries != [] {
      var e := entries[|entries| - 1];
      SastCountsMatches(entries[..|entries| - 1], matcher);
      if Scanned(e) {
        RuleFindingsLength(RelPath(e), e.content.value, Rules, matcher);
      }
    }
  }


  /** A finding's line is 1-based and no later than the file's last line. */
  lemma FindingLine(f: Finding, e: WalkEntry, matcher: Matcher)
    requires FromEntry(f, e, matcher)
    ensures f.file == RelPath(e) && EndsWith(e.name, ".py") && !Pruned(e.dir)
    ensures 1 <= f.line <= CountChar(e.content.value, '\n') + 1
    ensures exists j :: 0 <= j < |Rules| && f.category == Rules[j].category && f.description == Rules[j].description
  {
    var c := e.content.value;
    var j, k :| 0 <= j < |Rules| && 0 <= k < |matcher(Rules[j].pattern, c)| &&
      f == MakeFinding(RelPath(e), c, Rules[j], matcher(Rules[j].pattern, c)[k]);
    var start := matcher(Rules[j].pattern, c)[k].start;
    CountCharPrefix(c, '\n', if start <= |c| then start else |c|);
  }

  /** With an engine whose matches are what the content holds, `code` is the text at the offset the line is computed from. */
  lemma FindingCode(f: Finding, e: WalkEntry, matcher: Matcher)
    requires MatcherSound(matcher) && FromEntry(f, e, matcher)
    ensures exists start: nat :: OccursAt(e.content.value, f.code, start) && f.line == LineOf(e.content.value, start)
  {
    var c := e.content.value;
    var j, k :| 0 <= j < |Rules| && 0 <= k < |matcher(Rules[j].pattern, c)| &&
      f == MakeFinding(RelPath(e), c, Rules[j], matcher(Rules[j].pattern, c)[k]);
    var m := matcher(Rules[j].pattern, c)[k];
    assert OccursAt(c, m.text, m.start);
  }

  /** Findings follow the walk: those of earlier files come first. */
  lemma {:induction false} SastFindingsSplit(a: seq<WalkEntry>, b: seq<WalkEntry>, matcher: Matcher)
    ensures SastFindings(a + b, matcher) == SastFindings(a, matcher) + SastFindings(b, matcher)
    decreases |b|
  {
    if b == [] {
      assert a + b == a;
    } else {
      var n := |b| - 1;
      assert (a + b)[..|a + b| - 1] == a + b[..n];
      SastFindingsSplit(a, b[..n], matcher);
    }
  }

  /** A file that is not scanned adds nothing: another name, a pruned directory, or unreadable. */
  lemma SastSkipsUnscanned(a: seq<WalkEntry>, e: WalkEntry, b: seq<WalkEntry>, matcher: Matcher)
    requires !Scanned(e)
    ensures SastFindings(a + [e] + b, matcher) == SastFindings(a + b, matcher)
  {
    SastFindingsSplit(a + [e], b, matcher);
    SastFindingsSplit(a, b, matcher);
    assert (a + [e])[..|a + [e]| - 1] == a;
  }

  /** SAST always succeeds once its report is written; the count is the length of the report's list, even when empty. */
  lemma SastReport(entries: seq<WalkEntry>, call: Call, outDir: string, matcher: Matcher)
    requires call.sastWrite.WriteOk?
    ensures SastScan(entries, call, outDir, matcher) == Ok(Scan(
      Succeeded(|SastFindings(entries, matcher)|, Join(outDir, "sast-report.json")),
      Some((Join(outDir, "sast-report.json"), SastIssues(SastFindings(entries, matcher))))))
    ensures entries == [] ==> SastScan(entries, call, outDir, matcher) == Ok(Scan(
      Succeeded(0, Join(outDir, "sast-report.json")), Some((Join(outDir, "sast-report.json"), SastIssues([])))))
  {
  }
}
