/** Shared vocabulary of the scanners: optional values, decoded JSON, the outcome
    of one external process, and the status records every scanner returns. */
module Base {

  datatype Option<+T> = None | Some(value: T) {
    /** Python's `d.get(key, default)` once the lookup has been made. */
    function GetOr(default: T): T {
      match this
      case Some(v) => v
      case None => default
    }
  }

  /** No element occurs twice. */
  predicate Distinct<T(==)>(s: seq<T>) {
    forall i, j :: 0 <= i < j < |s| ==> s[i] != s[j]
  }

  /** A decoded JSON document. Numbers are kept as integers: a fractional value
      such as `0.5` or `0.0` is not represented. */
  datatype Json =
    | JNull
    | JBool(b: bool)
    | JNumber(n: int)
    | JString(s: string)
    | JArray(items: seq<Json>)
    | JObject(members: seq<(string, Json)>)

  /** The keys of a decoded dictionary. */
  function KeySet(members: seq<(string, Json)>): (ks: set<string>)
    ensures |ks| <= |members|
  {
    if |members| == 0 then {} else KeySet(members[..|members| - 1]) + {members[|members| - 1].0}
  }

  lemma {:induction false} KeySetMembers(members: seq<(string, Json)>, k: string)
    ensures k in KeySet(members) <==> exists i :: 0 <= i < |members| && members[i].0 == k
  {
    if |members| > 0 {
      var init := members[..|members| - 1];
      KeySetMembers(init, k);
      if k in KeySet(init) {
        var i :| 0 <= i < |init| && init[i].0 == k;
        assert members[i] == init[i];
      }
      if exists i :: 0 <= i < |members| && members[i].0 == k {
        var i :| 0 <= i < |members| && members[i].0 == k;
        if i < |init| {
          assert init[i] == members[i];
        }
      }
    }
  }

  /** `len(d)` of a decoded dictionary: the number of distinct keys, since a repeated
      key overwrites the earlier entry. */
  function KeyCount(members: seq<(string, Json)>): (n: nat)
    ensures n <= |members|
    ensures n == 0 <==> members == []
  {
    |KeySet(members)|
  }

  /** Without a repeated key every member counts. */
  lemma {:induction false} KeyCountDistinct(members: seq<(string, Json)>)
    requires forall i, j :: 0 <= i < j < |members| ==> members[i].0 != members[j].0
    ensures KeyCount(members) == |members|
  {
    if |members| > 0 {
      var init := members[..|members| - 1];
      var last := members[|members| - 1].0;
      KeyCountDistinct(init);
      KeySetMembers(init, last);
      assert last !in KeySet(init);
    }
  }

  /** Python truthiness of a decoded JSON value (`if findings:`). */
  predicate Truthy(j: Json) {
    match j
    case JNull => false
    case JBool(b) => b
    case JNumber(n) => n != 0
    case JString(s) => s != ""
    case JArray(items) => items != []
    case JObject(members) => members != []
  }

  /** What one `subprocess.run` call ends in: the process exited with a code and its
      captured streams, `TimeoutExpired` was raised, `FileNotFoundError` was raised
      (the executable is missing), or some other exception was raised (its `str`). */
  datatype ProcOutcome =
    | Exited(code: int, stdout: string, stderr: string)
    | TimedOut
    | NotFound(msg: string)
    | Raised(msg: string)

  /** One external process call: argument vector, wall-clock bound in seconds,
      text fed to standard input ("" when none) and working directory ("" when the
      caller's own). */
  datatype Invocation = Invocation(argv: seq<string>, timeout: nat, stdin: string, cwd: string)

  /** The environment: what each invocation ends in. Process execution itself is not
      modelled; a scanner only sees this outcome. */
  type Runner = Invocation -> ProcOutcome

  /** `json.loads`: `None` stands for a `JSONDecodeError` (or any other parse failure). */
  type Parser = string -> Option<Json>

  /** The `status` strings the scanners write into their result dictionaries. */
  datatype Status = Completed | IssuesFound | Failed | Timeout | NotInstalled | Error {
    function Text(): (t: string)
      ensures t != ""
    {
      match this
      case Completed => "completed"
      case IssuesFound => "issues_found"
      case Failed => "failed"
      case Timeout => "timeout"
      case NotInstalled => "not_installed"
      case Error => "error"
    }
  }

  /** The payload keys of a result dictionary besides `status` (and the target key):
      `results` (parsed tool JSON), `findings: []`, `output`, `output` + `errors`,
      `error`, or a list of per-target entries under `findings`. */
  datatype Body =
    | Results(json: Json)
    | NoFindings
    | Output(output: string)
    | OutputErrors(output: string, errors: string)
    | ErrorText(error: string)
    | Entries(entries: seq<Record>)

  /** A result dictionary about one target: a chart, a Dockerfile, an image or a jar. */
  datatype Record = Record(target: string, status: Status, body: Body)

  /** What a whole-repository tool run returns: either the tool's own parsed JSON,
      handed back unchanged, or a dictionary carrying a `status`. */
  datatype Report = Raw(json: Json) | Summary(status: Status, body: Body)

  /** The status every classifier assigns to a process call that raised. */
  function RaisedStatus(o: ProcOutcome): (s: Status)
    requires !o.Exited?
    ensures s == Timeout <==> o.TimedOut?
    ensures s == NotInstalled <==> o.NotFound?
    ensures s == Error <==> o.Raised?
  {
    match o
    case TimedOut => Timeout
    case NotFound(_) => NotInstalled
    case Raised(_) => Error
  }

  /** The `error` text of a raised process call: a fixed message for a timeout or a
      missing executable, `str(e)` for anything else. */
  function RaisedText(o: ProcOutcome, timeoutText: string, missingText: string): string
    requires !o.Exited?
  {
    match o
    case TimedOut => timeoutText
    case NotFound(_) => missingText
    case Raised(msg) => msg
  }

  /** `{'findings': [], 'status': 'completed'}` or the parsed JSON itself. */
  function ParsedOrEmpty(stdout: string, parse: Parser): (r: Report)
    ensures r.Raw? <==> parse(stdout).Some?
    ensures r.Raw? ==> r.json == parse(stdout).value
    ensures r.Summary? ==> r == Summary(Completed, NoFindings)
  {
    match parse(stdout)
    case Some(j) => Raw(j)
    case None => Summary(Completed, NoFindings)
  }

  /** `{'target': t, 'results': parsed, 'status': 'completed'}`, or
      `{'target': t, 'findings': [], 'status': 'completed'}` when parsing fails. */
  function ParsedRecord(target: string, stdout: string, parse: Parser): (r: Record)
    ensures r.target == target && r.status == Completed
    ensures r.body.Results? <==> parse(stdout).Some?
    ensures r.body.Results? ==> r.body.json == parse(stdout).value
    ensures !r.body.Results? ==> r.body == NoFindings
  {
    match parse(stdout)
    case Some(j) => Record(target, Completed, Results(j))
    case None => Record(target, Completed, NoFindings)
  }

  /** The decision every per-target `_run_*` shares: an accepted exit code hands back
      the parsed output (or `findings: []` when it does not parse), any other exit code
      fails with stderr, and an exception becomes a status and a message. */
  function ToolRecord(target: string, o: ProcOutcome, accepted: set<int>, parse: Parser,
                      timeoutText: string, missingText: string): (r: Record)
    ensures r.target == target
    ensures r.status == Completed <==> o.Exited? && o.code in accepted
    ensures r.status == Completed ==> r == ParsedRecord(target, o.stdout, parse)
    ensures r.status == Failed <==> o.Exited? && o.code !in accepted
    ensures r.status == Failed ==> r.body == ErrorText(o.stderr)
    ensures !o.Exited? ==> r.status == RaisedStatus(o) && r.body == ErrorText(RaisedText(o, timeoutText, missingText))
  {
    match o
    case Exited(code, out, err) =>
      if code in accepted then ParsedRecord(target, out, parse) else Record(target, Failed, ErrorText(err))
    case _ => Record(target, RaisedStatus(o), ErrorText(RaisedText(o, timeoutText, missingText)))
  }

  /** The same decision for a whole-repository run, whose parsed output is handed back
      as it is. */
  function ToolReport(o: ProcOutcome, accepted: set<int>, parse: Parser,
                      timeoutText: string, missingText: string): (r: Report)
    ensures r.Raw? ==> o.Exited? && o.code in accepted && parse(o.stdout) == Some(r.json)
    ensures r.Summary? && r.status == Completed <==> o.Exited? && o.code in accepted && parse(o.stdout).None?
    ensures r.Summary? && r.status == Completed ==> r.body == NoFindings
    ensures r.Summary? && r.status == Failed <==> o.Exited? && o.code !in accepted
    ensures r.Summary? && r.status == Failed ==> r.body == ErrorText(o.stderr)
    ensures !o.Exited? ==> r == Summary(RaisedStatus(o), ErrorText(RaisedText(o, timeoutText, missingText)))
  {
    match o
    case Exited(code, out, err) =>
      if code in accepted then ParsedOrEmpty(out, parse) else Summary(Failed, ErrorText(err))
    case _ => Summary(RaisedStatus(o), ErrorText(RaisedText(o, timeoutText, missingText)))
  }
}
