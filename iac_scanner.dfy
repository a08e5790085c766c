/** The infrastructure-as-code scanner: trivy's configuration scan and checkov, each
    once over the repository. */
module IacScanner {
  import opened Base

  /** The tools run when the configuration names none. */
  const DefaultTools: seq<string> := ["trivy", "checkov"]

  /** The result dictionary: `None` for a tool that did not run. */
  datatype IacResults = IacResults(trivy: Option<Report>, checkov: Option<Report>)

  function TrivyConfigCall(repo: string): (c: Invocation)
    ensures |c.argv| >= 1 && c.argv[0] == "trivy" && c.argv[|c.argv| - 1] == repo && c.timeout == 300 && c.stdin == ""
  {
    Invocation(["trivy", "config", "--format", "json", repo], 300, "", "")
  }

  function CheckovCall(repo: string): (c: Invocation)
    ensures |c.argv| >= 3 && c.argv[0] == "checkov" && c.argv[2] == repo && c.timeout == 300 && c.stdin == ""
  {
    Invocation(["checkov", "--directory", repo, "--output", "json", "--quiet", "--skip-path", "reports"], 300, "", "")
  }

  /** `_run_trivy_config`: only exit 0 hands back trivy's JSON; any other exit code
      fails with stderr. */
  function TrivyConfig(repo: string, run: Runner, parse: Parser): (r: Report)
    ensures var o := run(TrivyConfigCall(repo));
            && (o.Exited? && o.code == 0 ==> r == ParsedOrEmpty(o.stdout, parse))
            && (o.Exited? && o.code != 0 ==> r == Summary(Failed, ErrorText(o.stderr)))
            && (!o.Exited? ==> r == Summary(RaisedStatus(o), ErrorText(RaisedText(o, "Trivy config scan timed out", "Trivy not installed"))))
  {
    ToolReport(run(TrivyConfigCall(repo)), {0}, parse, "Trivy config scan timed out", "Trivy not installed")
  }

  /** `_run_checkov`: exit 0 and exit 1 (failed checks are findings, not a failure)
      hand back checkov's JSON; any other exit code fails with stderr. */
  function Checkov(repo: string, run: Runner, parse: Parser): (r: Report)
    ensures var o := run(CheckovCall(repo));
            && (o.Exited? && (o.code == 0 || o.code == 1) ==> r == ParsedOrEmpty(o.stdout, parse))
            && (o.Exited? && o.code != 0 && o.code != 1 ==> r == Summary(Failed, ErrorText(o.stderr)))
            && (!o.Exited? ==> r == Summary(RaisedStatus(o), ErrorText(RaisedText(o, "Checkov scan timed out", "Checkov not installed"))))
  {
    ToolReport(run(CheckovCall(repo)), {0, 1}, parse, "Checkov scan timed out", "Checkov not installed")
  }

  /** `scan`: each tool runs iff the configuration names it. */
  function Scan(tools: seq<string>, repo: string, run: Runner, parse: Parser): (r: IacResults)
    ensures r.trivy.Some? <==> "trivy" in tools
    ensures r.checkov.Some? <==> "checkov" in tools
    ensures r.trivy.Some? ==> r.trivy.value == TrivyConfig(repo, run, parse)
    ensures r.checkov.Some? ==> r.checkov.value == Checkov(repo, run, parse)
  {
    IacResults(
      if "trivy" in tools then Some(TrivyConfig(repo, run, parse)) else None,
      if "checkov" in tools then Some(Checkov(repo, run, parse)) else None)
  }

  /** Unparsable output after an accepted exit code counts as a clean run. */
  lemma UnparsableIsClean(repo: string, run: Runner, parse: Parser)
    requires run(CheckovCall(repo)).Exited? && run(CheckovCall(repo)).code == 1
    requires parse(run(CheckovCall(repo)).stdout).None?
    ensures Checkov(repo, run, parse) == Summary(Completed, NoFindings)
  {
  }
}
