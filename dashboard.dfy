/**
 * The dashboard's two report endpoints. `get_report` checks a file name before
 * it looks at the reports directory, then answers 404, 500 or 200;
 * `get_reports` lists the directory's `*.json` files and skips those it cannot
 * read. Flask's routing and `jsonify` are left out: a response is its status
 * and its JSON body, and an exception no handler catches is returned as such
 * (Flask answers it with its own error page).
 */
module Dashboard {
  import opened Outcomes
  import opened Values
  import opened Paths

  /** REPORTS_DIR: `Path('./security_reports')`, which pathlib prints without the leading "./". */
  const ReportsDir: string := "security_reports"

  /** What `open(path)` followed by `json.load` does with a file. */
  datatype Read =
    | Decoded(data: Value)
      /** json.JSONDecodeError: empty or malformed content */
    | NotJson
      /** FileNotFoundError: the file went away after it was listed or checked */
    | Vanished
      /** any other exception (PermissionError, UnicodeDecodeError, ...): no handler catches it */
    | ReadRaised(exception: string)

  datatype Node = File(read: Read) | Subdirectory

  /** An entry of REPORTS_DIR, in the order the directory lists it. */
  datatype Entry = Entry(name: string, node: Node)

  /** REPORTS_DIR on disk. */
  datatype Reports = Missing | Present(entries: seq<Entry>)

  /** An exception that leaves the view function. */
  datatype Unhandled = Unhandled(exception: string)

  /** A view's answer: the status code and the body `jsonify` sends. */
  datatype Response = Response(status: nat, body: Value)

  /** `jsonify({'error': message}), status`. */
  function Failure(status: nat, message: string): Response {
    Response(status, Dict(map["error" := Str(message)]))
  }

  // ---------------------------------------------------------------------------
  // `get_report`

  /** The guard of `get_report`: the name contains no "..", no "/" and no "\". */
  predicate SafeFilename(filename: string) {
    !HasSubstring(filename, "..") && '/' !in filename && '\\' !in filename
  }

  /** What `REPORTS_DIR / filename` names: pathlib drops an empty or "." component, leaving the directory itself. */
  datatype Target = TheDirectory | Child(name: string)

  function Resolve(filename: string): Target {
    if filename == "" || filename == "." then TheDirectory else Child(filename)
  }

  /** The first entry of the directory listing with this name. */
  function Lookup(entries: seq<Entry>, name: string): (r: Option<Node>)
    ensures r.Some? <==> exists i :: 0 <= i < |entries| && entries[i].name == name
    decreases |entries|
  {
    if entries == [] then None
    else if entries[0].name == name then Some(entries[0].node)
    else
      var r := Lookup(entries[1..], name);
      assert forall i :: 0 < i < |entries| ==> entries[i] == entries[1..][i - 1];
      r
  }

  /** What exists at a target: nothing when REPORTS_DIR is missing. */
  function NodeAt(reports: Reports, target: Target): Option<Node> {
    match reports
    case Missing => None
    case Present(entries) =>
      match target
      case TheDirectory => Some(Subdirectory)
      case Child(name) => Lookup(entries, name)
  }

  /** `get_report(filename)`. */
  function GetReport(reports: Reports, filename: string): (r: Result<Response, Unhandled>)
    ensures r.Ok? ==> r.value.status in {200, 400, 404, 500}
    ensures !SafeFilename(filename) ==> r == Ok(Failure(400, "Invalid filename"))
    ensures r.Ok? && r.value.status == 200 ==> NodeAt(reports, Resolve(filename)) == Some(File(Decoded(r.value.body)))
  {
    if !SafeFilename(filename) then Ok(Failure(400, "Invalid filename"))
    else
      match NodeAt(reports, Resolve(filename))
      case None => Ok(Failure(404, "Report not found"))
      case Some(Subdirectory) => Err(Unhandled("IsADirectoryError"))
      case Some(File(Decoded(data))) => Ok(Response(200, data))
      case Some(File(NotJson)) => Ok(Failure(500, "Could not read report"))
      case Some(File(Vanished)) => Ok(Failure(500, "Could not read report"))
      case Some(File(ReadRaised(x))) => Err(Unhandled(x))
  }

  /**
   * The outcome ladder: 400 exactly for a rejected name, then 404 exactly for a
   * missing path, then 500 exactly when decoding fails or the file is gone, and
   * 200 with the decoded document otherwise; the remaining reads escape.
   */
  lemma ReportOutcomes(reports: Reports, filename: string)
    ensures GetReport(reports, filename) == Ok(Failure(400, "Invalid filename")) <==> !SafeFilename(filename)
    ensures GetReport(reports, filename) == Ok(Failure(404, "Report not found")) <==>
      SafeFilename(filename) && NodeAt(reports, Resolve(filename)).None?
    ensures GetReport(reports, filename) == Ok(Failure(500, "Could not read report")) <==>
      SafeFilename(filename) && NodeAt(reports, Resolve(filename)) in {Some(File(NotJson)), Some(File(Vanished))}
    ensures forall data :: GetReport(reports, filename) == Ok(Response(200, data)) <==>
      SafeFilename(filename) && NodeAt(reports, Resolve(filename)) == Some(File(Decoded(data)))
    ensures GetReport(reports, filename).Err? <==>
      SafeFilename(filename) && NodeAt(reports, Resolve(filename)).Some? &&
      (NodeAt(reports, Resolve(filename)).value.Subdirectory? || NodeAt(reports, Resolve(filename)).value.read.ReadRaised?)
  {
    var fail400, fail404, fail500 := Failure(400, "Invalid filename"), Failure(404, "Report not found"), Failure(500, "Could not read report");
    assert fail400.status != fail404.status && fail400.status != fail500.status && fail404.status != fail500.status;
    forall data ensures Response(200, data) != fail400 && Response(200, data) != fail404 && Response(200, data) != fail500 {
    }
  }

  /** The name "a..b.json" is rejected although it stays inside REPORTS_DIR: the guard looks for "..", not for a component "..". */
  lemma DoubleDotNameRejected(reports: Reports)
    ensures GetReport(reports, "a..b.json") == Ok(Failure(400, "Invalid filename"))
  {
    assert OccursAt("a..b.json", "..", 1);
  }

  /** The guard runs before any file access: a rejected name gets the same answer whatever the directory holds. */
  lemma RejectionIgnoresDirectory(r1: Reports, r2: Reports, filename: string)
    requires !SafeFilename(filename)
    ensures GetReport(r1, filename) == GetReport(r2, filename)
  {
  }

  /** `REPORTS_DIR / filename` for a separator-free name is the directory itself exactly where `Resolve` says. */
  lemma ResolveIsJoin(filename: string)
    requires '/' !in filename
    ensures Join(ReportsDir, filename) == match Resolve(filename)
      case TheDirectory => ReportsDir
      case Child(name) => ReportsDir + "/" + name
  {
    assert Component(ReportsDir);
    JoinToComponent(ReportsDir, filename);
  }

  /**
   * An accepted name that is not the directory itself is one path component:
   * not ".." and free of separators, so `REPORTS_DIR / filename` has exactly one
   * "/" and it follows REPORTS_DIR.
   */
  lemma AcceptedNameIsOneComponent(filename: string)
    requires SafeFilename(filename) && Resolve(filename).Child?
    ensures filename != "" && filename != "." && filename != ".."
    ensures Join(ReportsDir, filename) == ReportsDir + "/" + filename
    ensures CountChar(Join(ReportsDir, filename), '/') == 1 && CountChar(ReportsDir, '/') == 0
  {
    if filename == ".." {
      assert OccursAt(filename, "..", 0);
    }
    assert CountChar(ReportsDir + "/" + filename, '/') == 1 && CountChar(ReportsDir, '/') == 0 by {
      CountCharAbsent(ReportsDir, '/');
      CountCharAbsent(filename, '/');
      CountCharConcat(ReportsDir, "/", '/');
      CountCharConcat(ReportsDir + "/", filename, '/');
      assert CountChar("/", '/') == CountChar("", '/') + 1 by { assert "/"[..0] == ""; }
    }
    ResolveIsJoin(filename);
  }

  // ---------------------------------------------------------------------------
  // `get_reports`

  /** `REPORTS_DIR.glob('*.json')` keeps the entries whose name ends in ".json" (hidden ones and directories included). */
  predicate Globbed(e: Entry) {
    EndsWith(e.name, ".json")
  }

  /** The dictionary `get_reports` appends for a report it could read. */
  function Summary(name: string, data: Value): Value {
    Dict(map["name" := Str(Stem(name)), "file" := Str(name), "data" := data])
  }

  /** An entry that `get_reports` cannot skip: a directory, or a file whose read raises past the handler. */
  predicate Escapes(e: Entry) {
    Globbed(e) && (e.node.Subdirectory? || e.node.read.ReadRaised?)
  }

  /** The loop of `get_reports` over these entries, in order: the list it has built, or the exception that ended it. */
  function Collected(entries: seq<Entry>): Result<seq<Value>, Unhandled>
    decreases |entries|
  {
    if entries == [] then Ok([])
    else
      match Collected(entries[..|entries| - 1])
      case Err(x) => Err(x)
      case Ok(acc) =>
        var e := entries[|entries| - 1];
        if !Globbed(e) then Ok(acc)
        else
          match e.node
          case Subdirectory => Err(Unhandled("IsADirectoryError"))
          case File(Decoded(data)) => Ok(acc + [Summary(e.name, data)])
          case File(NotJson) => Ok(acc)
          case File(Vanished) => Ok(acc)
          case File(ReadRaised(x)) => Err(Unhandled(x))
  }

  /** The body of `get_reports`' response. */
  function ReportsBody(reports: Reports): Result<Value, Unhandled> {
    match reports
    case Missing => Ok(Dict(map["reports" := List([])]))
    case Present(entries) =>
      match Collected(entries)
      case Ok(acc) => Ok(Dict(map["reports" := List(acc)]))
      case Err(x) => Err(x)
  }

  /** `get_reports()`. */
  method GetReports(reports: Reports) returns (r: Result<Value, Unhandled>)
    ensures r == ReportsBody(reports)
  {
    if reports.Missing? {
      return Ok(Dict(map["reports" := List([])]));
    }
    var entries := reports.entries;
    var acc: seq<Value> := [];
    for i := 0 to |entries|
      invariant Collected(entries[..i]) == Ok(acc)
    {
      assert entries[..i + 1][..i] == entries[..i];
      var e := entries[i];
      if Globbed(e) {
        match e.node
        case Subdirectory =>
          EscapeIsFinal(entries, i + 1);
          return Err(Unhandled("IsADirectoryError"));
        case File(read) =>
          match read
          case Decoded(data) =>
            acc := acc + [Summary(e.name, data)];
          case NotJson =>
          case Vanished =>
          case ReadRaised(x) =>
            EscapeIsFinal(entries, i + 1);
            return Err(Unhandled(x));
      }
    }
    assert entries[..|entries|] == entries;
    return Ok(Dict(map["reports" := List(acc)]));
  }

  /** Once the loop has escaped, later entries do not matter. */
  lemma {:induction false} EscapeIsFinal(entries: seq<Entry>, n: nat)
    requires n <= |entries| && Collected(entries[..n]).Err?
    ensures Collected(entries) == Collected(entries[..n])
    decreases |entries| - n
  {
    if n < |entries| {
      assert entries[..n + 1][..n] == entries[..n];
      EscapeIsFinal(entries, n + 1);
    } else {
      assert entries[..n] == entries;
    }
  }

  /** The summaries of the readable `*.json` files, in directory order: a reference definition by head recursion. */
  function Summaries(entries: seq<Entry>): seq<Value>
    decreases |entries|
  {
    if entries == [] then []
    else
      var rest := Summaries(entries[1..]);
      if Globbed(entries[0]) && entries[0].node.File? && entries[0].node.read.Decoded? then
        [Summary(entries[0].name, entries[0].node.read.data)] + rest
      else rest
  }

  /** Summaries of a concatenation. */
  lemma {:induction false} SummariesConcat(a: seq<Entry>, b: seq<Entry>)
    ensures Summaries(a + b) == Summaries(a) + Summaries(b)
    decreases |a|
  {
    if a == [] {
      assert a + b == b;
    } else {
      assert (a + b)[1..] == a[1..] + b;
      SummariesConcat(a[1..], b);
    }
  }

  /**
   * The listing fails exactly when some `*.json` entry is a directory or raises
   * past the handler; otherwise it is every readable `*.json` file's summary, in
   * directory order, and the undecodable or vanished ones are left out.
   */
  lemma {:induction false} CollectedIsSummaries(entries: seq<Entry>)
    ensures Collected(entries).Ok? <==> forall i :: 0 <= i < |entries| ==> !Escapes(entries[i])
    ensures Collected(entries).Ok? ==> Collected(entries).value == Summaries(entries)
    decreases |entries|
  {
    if entries != [] {
      var p, e := entries[..|entries| - 1], entries[|entries| - 1];
      assert entries == p + [e];
      CollectedIsSummaries(p);
      SummariesConcat(p, [e]);
      assert [e][1..] == [];
      assert forall i :: 0 <= i < |p| ==> p[i] == entries[i];
    }
  }

  /** A listed report is a readable `*.json` file of the directory, with `name` its stem and `file` its name; every such file is listed. */
  lemma {:induction false} SummariesMembers(entries: seq<Entry>, v: Value)
    ensures v in Summaries(entries) <==>
      exists i :: 0 <= i < |entries| && Globbed(entries[i]) && entries[i].node.File? && entries[i].node.read.Decoded? &&
        v == Summary(entries[i].name, entries[i].node.read.data)
    decreases |entries|
  {
    if entries != [] {
      SummariesMembers(entries[1..], v);
      assert forall i :: 0 < i < |entries| ==> entries[i] == entries[1..][i - 1];
      if v in Summaries(entries[1..]) {
        var i :| 0 <= i < |entries[1..]| && Globbed(entries[1..][i]) && entries[1..][i].node.File? && entries[1..][i].node.read.Decoded? &&
          v == Summary(entries[1..][i].name, entries[1..][i].node.read.data);
        assert entries[i + 1] == entries[1..][i];
      }
    }
  }

  /** Without REPORTS_DIR the list is empty. */
  lemma MissingDirectoryListsNothing()
    ensures ReportsBody(Missing) == Ok(Dict(map["reports" := List([])]))
  {
  }

  /** An undecodable or vanished file is skipped: removing it changes nothing in the listing. */
  lemma UnreadableSkipped(entries: seq<Entry>, i: nat)
    requires i < |entries| && entries[i].node.File? && (entries[i].node.read.NotJson? || entries[i].node.read.Vanished?)
    ensures Summaries(entries) == Summaries(entries[..i] + entries[i + 1..])
  {
    var a, x, b := entries[..i], entries[i], entries[i + 1..];
    assert entries == a + ([x] + b);
    SummariesConcat(a, [x] + b);
    assert ([x] + b)[1..] == b;
    SummariesConcat(a, b);
  }
}
