/** The lint scanner: hadolint once per Dockerfile, its exit code read as clean,
    issues found, or a crash. */
module LintScanner {
  import opened Base
  import opened Text

  /** The tools run when the configuration names none. */
  const DefaultTools: seq<string> := ["hadolint"]

  /** The result dictionary: only the `hadolint` list. */
  datatype LintResults = LintResults(hadolint: seq<Record>)

  function HadolintCall(dockerfile: string): (c: Invocation)
    ensures |c.argv| >= 1 && c.argv[0] == "hadolint" && c.argv[|c.argv| - 1] == dockerfile && c.timeout == 60 && c.stdin == ""
  {
    Invocation(["hadolint", "--format", "json", dockerfile], 60, "", "")
  }

  const CrashPrefix: string := "Hadolint crashed with code "

  /** `_run_hadolint`: exit 0 completes (even with no output), exit 1 reports issues
      unless the output is empty, and any other exit code is an error naming the
      code. */
  function Hadolint(dockerfile: string, run: Runner): (r: Record)
    ensures r.target == dockerfile
    ensures var o := run(HadolintCall(dockerfile));
            && (r.status == Completed <==> o.Exited? && o.code == 0)
            && (r.status == IssuesFound <==> o.Exited? && o.code == 1 && o.stdout != "")
            && (r.status in {Completed, IssuesFound} ==> r.body == Output(o.stdout))
            && (o.Exited? && o.code == 1 && o.stdout == "" ==>
                  r == Record(dockerfile, Error, ErrorText("Hadolint returned status 1 but empty output")))
            && (o.Exited? && o.code != 0 && o.code != 1 ==>
                  r == Record(dockerfile, Error, ErrorText(CrashPrefix + IntToString(o.code))))
            && (!o.Exited? ==> r.status == RaisedStatus(o)
                               && r.body == ErrorText(RaisedText(o, "Hadolint timed out", "Hadolint not installed")))
  {
    match run(HadolintCall(dockerfile))
    case Exited(code, out, _) =>
      if code == 0 then Record(dockerfile, Completed, Output(out))
      else if code == 1 then
        if out == "" then Record(dockerfile, Error, ErrorText("Hadolint returned status 1 but empty output"))
        else Record(dockerfile, IssuesFound, Output(out))
      else Record(dockerfile, Error, ErrorText(CrashPrefix + IntToString(code)))
    case o => Record(dockerfile, RaisedStatus(o), ErrorText(RaisedText(o, "Hadolint timed out", "Hadolint not installed")))
  }

  /** The crash message gives the exit code back exactly. */
  lemma CrashMessageNamesCode(dockerfile: string, run: Runner)
    requires run(HadolintCall(dockerfile)).Exited?
    requires run(HadolintCall(dockerfile)).code !in {0, 1}
    ensures var r := Hadolint(dockerfile, run);
            r.body.ErrorText? && CrashPrefix <= r.body.error
            && ParseInt(r.body.error[|CrashPrefix|..]) == Some(run(HadolintCall(dockerfile)).code)
  {
    var code := run(HadolintCall(dockerfile)).code;
    IntToStringRoundTrip(code);
    assert (CrashPrefix + IntToString(code))[|CrashPrefix|..] == IntToString(code);
  }

  /** `scan`: one record per Dockerfile, in order, when hadolint is configured;
      otherwise (or with no Dockerfiles) an empty list. */
  method Scan(tools: seq<string>, dockerfiles: seq<string>, run: Runner) returns (r: LintResults)
    ensures |r.hadolint| == (if "hadolint" in tools then |dockerfiles| else 0)
    ensures forall i :: 0 <= i < |r.hadolint| ==> r.hadolint[i] == Hadolint(dockerfiles[i], run)
  {
    var records: seq<Record> := [];
    if "hadolint" in tools && dockerfiles != [] {
      for i := 0 to |dockerfiles|
        invariant |records| == i
        invariant forall k :: 0 <= k < i ==> records[k] == Hadolint(dockerfiles[k], run)
      {
        records := records + [Hadolint(dockerfiles[i], run)];
      }
    }
    r := LintResults(records);
  }
}
