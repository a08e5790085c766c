/** The dependency scanner: trivy's filesystem scan over the repository. Although
    the default tool list also names OWASP dependency-check, only trivy is ever run. */
module DependencyScanner {
  import opened Base

  /** The tools listed when the configuration names none. */
  const DefaultTools: seq<string> := ["owasp-dependency-check", "trivy"]

  /** The result dictionary: only `trivy`, `None` when it did not run. */
  datatype DependencyResults = DependencyResults(trivy: Option<Report>)

  /** The bound is fixed at 600 seconds; the configured `scanner_timeout` is not used. */
  function TrivyFsCall(repo: string): (c: Invocation)
    ensures |c.argv| >= 1 && c.argv[0] == "trivy" && c.argv[|c.argv| - 1] == repo && c.timeout == 600 && c.stdin == ""
  {
    Invocation(["trivy", "fs", "--format", "json", "--scanners", "vuln", repo], 600, "", "")
  }

  /** `_run_trivy_fs`: only exit 0 hands back trivy's JSON; any other exit code fails
      with stderr. */
  function TrivyFs(repo: string, run: Runner, parse: Parser): (r: Report)
    ensures var o := run(TrivyFsCall(repo));
            && (o.Exited? && o.code == 0 ==> r == ParsedOrEmpty(o.stdout, parse))
            && (o.Exited? && o.code != 0 ==> r == Summary(Failed, ErrorText(o.stderr)))
            && (!o.Exited? ==> r == Summary(RaisedStatus(o), ErrorText(RaisedText(o, "Trivy scan timed out", "Trivy not installed"))))
  {
    ToolReport(run(TrivyFsCall(repo)), {0}, parse, "Trivy scan timed out", "Trivy not installed")
  }

  /** `scan`: trivy runs iff the configuration names it; the configured timeout is
      accepted and has no effect. */
  function Scan(tools: seq<string>, repo: string, configuredTimeout: Option<nat>, run: Runner, parse: Parser)
    : (r: DependencyResults)
    ensures r.trivy.Some? <==> "trivy" in tools
    ensures r.trivy.Some? ==> r.trivy.value == TrivyFs(repo, run, parse)
  {
    DependencyResults(if "trivy" in tools then Some(TrivyFs(repo, run, parse)) else None)
  }

  /** Whatever timeout is configured, the scan is the same. */
  lemma TimeoutSettingUnused(tools: seq<string>, repo: string, t1: Option<nat>, t2: Option<nat>, run: Runner, parse: Parser)
    ensures Scan(tools, repo, t1, run, parse) == Scan(tools, repo, t2, run, parse)
  {
  }
}
