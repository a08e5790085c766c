/** The secrets scanner: gitleaks writes its findings to a report file, and the
    result is read from that file rather than from gitleaks' exit code. */
module SecretsScanner {
  import opened Base

  /** The tools run when the configuration names none. */
  const DefaultTools: seq<string> := ["gitleaks"]

  /** The bound used when the configuration gives no `scanner_timeout`. */
  const DefaultTimeout: nat := 1800

  const ReportPath: string := "/tmp/gitleaks-report.json"

  /** The result dictionary: `None` when gitleaks did not run. */
  datatype SecretsResults = SecretsResults(gitleaks: Option<Report>)

  /** The report file as found after gitleaks has run: absent, present but not
      readable as text (the error's `str`), or its contents. */
  datatype ReportFile = Missing | Unreadable(msg: string) | Contents(text: string)

  function ScanTimeout(configured: Option<nat>): nat {
    configured.GetOr(DefaultTimeout)
  }

  function GitleaksCall(repo: string, timeout: nat): (c: Invocation)
    ensures |c.argv| >= 4 && c.argv[0] == "gitleaks" && c.argv[3] == repo && c.timeout == timeout && c.stdin == ""
  {
    Invocation(["gitleaks", "detect", "--source", repo, "--report-format", "json",
                "--report-path", ReportPath, "--no-git"], timeout, "", "")
  }

  /** `[]`. */
  const NoSecrets: Report := Raw(JArray([]))

  /** `_run_gitleaks`. Once gitleaks has exited, with any code, the result is the
      report's findings when they are truthy, and `[]` when the report is missing,
      unparsable or falsy; reading it may still raise, which is an `error`. */
  function Gitleaks(repo: string, timeout: nat, run: Runner, report: ReportFile, parse: Parser): (r: Report)
    ensures var o := run(GitleaksCall(repo, timeout));
            && (o.Exited? && report.Missing? ==> r == NoSecrets)
            && (o.Exited? && report.Unreadable? ==> r == Summary(Error, ErrorText(report.msg)))
            && (o.Exited? && report.Contents? ==>
                  r == match parse(report.text)
                       case Some(j) => if Truthy(j) then Raw(j) else NoSecrets
                       case None => NoSecrets)
            && (!o.Exited? ==> r == Summary(RaisedStatus(o), ErrorText(RaisedText(o, "Gitleaks scan timed out", "Gitleaks not installed"))))
  {
    match run(GitleaksCall(repo, timeout))
    case Exited(_, _, _) =>
      (match report
       case Missing => NoSecrets
       case Unreadable(msg) => Summary(Error, ErrorText(msg))
       case Contents(text) =>
         match parse(text)
         case Some(j) => if Truthy(j) then Raw(j) else NoSecrets
         case None => NoSecrets)
    case o => Summary(RaisedStatus(o), ErrorText(RaisedText(o, "Gitleaks scan timed out", "Gitleaks not installed")))
  }

  /** The exit code and the streams of gitleaks play no part: two runs that both exit
      give the same result for the same report file. */
  lemma ExitCodeIgnored(repo: string, timeout: nat, run1: Runner, run2: Runner, report: ReportFile, parse: Parser)
    requires run1(GitleaksCall(repo, timeout)).Exited? && run2(GitleaksCall(repo, timeout)).Exited?
    ensures Gitleaks(repo, timeout, run1, report, parse) == Gitleaks(repo, timeout, run2, report, parse)
  {
  }

  /** The result is either findings that are truthy, `[]`, or a dictionary whose status
      is one of the three exception statuses: never `completed` or `failed`. */
  lemma GitleaksResultKinds(repo: string, timeout: nat, run: Runner, report: ReportFile, parse: Parser)
    ensures var r := Gitleaks(repo, timeout, run, report, parse);
            (r.Raw? && (Truthy(r.json) || r == NoSecrets))
            || (r.Summary? && r.status in {Timeout, NotInstalled, Error} && r.body.ErrorText?)
  {
  }

  /** `scan`: gitleaks runs iff the configuration names it, bounded by the configured
      `scanner_timeout` (1800 seconds by default). */
  function Scan(tools: seq<string>, repo: string, configuredTimeout: Option<nat>, run: Runner,
                report: ReportFile, parse: Parser): (r: SecretsResults)
    ensures r.gitleaks.Some? <==> "gitleaks" in tools
    ensures r.gitleaks.Some? ==> r.gitleaks.value == Gitleaks(repo, ScanTimeout(configuredTimeout), run, report, parse)
    ensures configuredTimeout.None? ==> ScanTimeout(configuredTimeout) == 1800
  {
    SecretsResults(if "gitleaks" in tools then Some(Gitleaks(repo, ScanTimeout(configuredTimeout), run, report, parse)) else None)
  }
}
