/** The helm scanner: four tools, each run once per chart directory the detector
    found, each call classified into one record that names its chart. */
module HelmScanner {
  import opened Base

  /** The tools run when the configuration names none. */
  const DefaultTools: seq<string> := ["kubescan", "kubeaudit", "helm-lint", "trivy"]

  /** The result dictionary: always these four lists. */
  datatype HelmResults = HelmResults(
    kubescan: seq<Record>,
    kubeaudit: seq<Record>,
    helmLint: seq<Record>,
    trivy: seq<Record>)

  // ---------------------------------------------------------------- calls

  function KubescapeCall(chart: string): (c: Invocation)
    ensures |c.argv| >= 1 && c.argv[0] == "kubescape" && c.argv[|c.argv| - 1] == chart && c.timeout == 300 && c.stdin == ""
  {
    Invocation(["kubescape", "scan", "framework", "nsa", "--format", "json", chart], 300, "", "")
  }

  function TemplateCall(chart: string): (c: Invocation)
    ensures |c.argv| >= 1 && c.argv[0] == "helm" && c.argv[|c.argv| - 1] == chart && c.timeout == 60 && c.stdin == ""
  {
    Invocation(["helm", "template", chart], 60, "", "")
  }

  /** The audit reads the rendered chart on standard input. */
  function AuditCall(rendered: string): (c: Invocation)
    ensures |c.argv| >= 1 && c.argv[0] == "kubeaudit" && c.stdin == rendered && c.timeout == 60
  {
    Invocation(["kubeaudit", "all", "-f", "-"], 60, rendered, "")
  }

  function LintCall(chart: string): (c: Invocation)
    ensures |c.argv| >= 1 && c.argv[0] == "helm" && c.argv[|c.argv| - 1] == chart && c.timeout == 60 && c.stdin == ""
  {
    Invocation(["helm", "lint", chart], 60, "", "")
  }

  function TrivyCall(chart: string): (c: Invocation)
    ensures |c.argv| >= 1 && c.argv[0] == "trivy" && c.argv[|c.argv| - 1] == chart && c.timeout == 300 && c.stdin == ""
  {
    Invocation(["trivy", "config", "--format", "json", chart], 300, "", "")
  }

  // ---------------------------------------------------------------- classifiers

  /** `_run_kubescan`: exit 0 (clean) and exit 1 (findings) both complete; any other
      exit code fails with stderr. */
  function Kubescan(chart: string, run: Runner, parse: Parser): (r: Record)
    ensures r.target == chart
    ensures var o := run(KubescapeCall(chart));
            && (r.status == Completed <==> o.Exited? && (o.code == 0 || o.code == 1))
            && (r.status == Completed ==> r == ParsedRecord(chart, o.stdout, parse))
            && (r.status == Failed <==> o.Exited? && o.code != 0 && o.code != 1)
            && (r.status == Failed ==> r.body == ErrorText(o.stderr))
            && (!o.Exited? ==> r.status == RaisedStatus(o)
                               && r.body == ErrorText(RaisedText(o, "Kubescape scan timed out", "Kubescape not installed")))
  {
    ToolRecord(chart, run(KubescapeCall(chart)), {0, 1}, parse, "Kubescape scan timed out", "Kubescape not installed")
  }

  /** `_run_kubeaudit`: a chart that does not render fails without an audit; a
      rendered chart completes with the audit's output whatever the audit's exit code.
      An exception in either call is mapped as usual. */
  function Kubeaudit(chart: string, run: Runner): (r: Record)
    ensures r.target == chart
    ensures var t := run(TemplateCall(chart));
            && (t.Exited? && t.code != 0 ==> r == Record(chart, Failed, ErrorText("Failed to template chart")))
            && (!t.Exited? ==> r.status == RaisedStatus(t)
                               && r.body == ErrorText(RaisedText(t, "Kubeaudit timed out", "Kubeaudit or Helm not installed")))
            && (t.Exited? && t.code == 0 ==>
                  var a := run(AuditCall(t.stdout));
                  && (a.Exited? ==> r == Record(chart, Completed, Output(a.stdout)))
                  && (!a.Exited? ==> r.status == RaisedStatus(a)
                                     && r.body == ErrorText(RaisedText(a, "Kubeaudit timed out", "Kubeaudit or Helm not installed"))))
  {
    match run(TemplateCall(chart))
    case Exited(code, rendered, _) =>
      if code != 0 then Record(chart, Failed, ErrorText("Failed to template chart"))
      else
        (match run(AuditCall(rendered))
         case Exited(_, out, _) => Record(chart, Completed, Output(out))
         case a => Record(chart, RaisedStatus(a), ErrorText(RaisedText(a, "Kubeaudit timed out", "Kubeaudit or Helm not installed"))))
    case t => Record(chart, RaisedStatus(t), ErrorText(RaisedText(t, "Kubeaudit timed out", "Kubeaudit or Helm not installed")))
  }

  /** `_run_helm_lint`: every exit carries both streams; exit 0 completes and any other
      code reports issues. */
  function HelmLint(chart: string, run: Runner): (r: Record)
    ensures r.target == chart
    ensures var o := run(LintCall(chart));
            && (o.Exited? ==> r.body == OutputErrors(o.stdout, o.stderr)
                              && (r.status == Completed <==> o.code == 0)
                              && (r.status == IssuesFound <==> o.code != 0))
            && (!o.Exited? ==> r.status == RaisedStatus(o)
                               && r.body == ErrorText(RaisedText(o, "Helm lint timed out", "Helm not installed")))
  {
    match run(LintCall(chart))
    case Exited(code, out, err) => Record(chart, if code == 0 then Completed else IssuesFound, OutputErrors(out, err))
    case o => Record(chart, RaisedStatus(o), ErrorText(RaisedText(o, "Helm lint timed out", "Helm not installed")))
  }

  /** `_run_trivy_helm`: only exit 0 completes; any other exit code fails with stderr. */
  function TrivyHelm(chart: string, run: Runner, parse: Parser): (r: Record)
    ensures r.target == chart
    ensures var o := run(TrivyCall(chart));
            && (r.status == Completed <==> o.Exited? && o.code == 0)
            && (r.status == Completed ==> r == ParsedRecord(chart, o.stdout, parse))
            && (r.status == Failed <==> o.Exited? && o.code != 0)
            && (r.status == Failed ==> r.body == ErrorText(o.stderr))
            && (!o.Exited? ==> r.status == RaisedStatus(o)
                               && r.body == ErrorText(RaisedText(o, "Trivy scan timed out", "Trivy not installed")))
  {
    ToolRecord(chart, run(TrivyCall(chart)), {0}, parse, "Trivy scan timed out", "Trivy not installed")
  }

  /** The same exit code 1 is a finding for kubescape and a failure for trivy. */
  lemma ExitOneIsFindingsForKubescapeOnly(chart: string, run: Runner, parse: Parser)
    requires run(KubescapeCall(chart)).Exited? && run(KubescapeCall(chart)).code == 1
    requires run(TrivyCall(chart)).Exited? && run(TrivyCall(chart)).code == 1
    ensures Kubescan(chart, run, parse).status == Completed
    ensures TrivyHelm(chart, run, parse).status == Failed
  {
  }

  /** No helm call that raises is ever reported as completed or failed: the three
      exception kinds land on three distinct statuses. */
  lemma ExceptionsAreNeverCompleted(chart: string, run: Runner, parse: Parser)
    requires !run(LintCall(chart)).Exited?
    ensures HelmLint(chart, run).status in {Timeout, NotInstalled, Error}
  {
  }

  // ---------------------------------------------------------------- fan-out

  /** The record the tool of that name makes for one chart. */
  function RunTool(name: string, chart: string, run: Runner, parse: Parser): Record
    requires name in DefaultTools
  {
    if name == "kubescan" then Kubescan(chart, run, parse)
    else if name == "kubeaudit" then Kubeaudit(chart, run)
    else if name == "helm-lint" then HelmLint(chart, run)
    else TrivyHelm(chart, run, parse)
  }

  /** The list one tool fills: its record for each chart, in chart order. */
  function Records(name: string, charts: seq<string>, run: Runner, parse: Parser): seq<Record>
    requires name in DefaultTools
  {
    if |charts| == 0 then []
    else Records(name, charts[..|charts| - 1], run, parse) + [RunTool(name, charts[|charts| - 1], run, parse)]
  }

  /** The list of a tool the configuration names, or an empty one. */
  function Column(tools: seq<string>, name: string, charts: seq<string>, run: Runner, parse: Parser): seq<Record>
    requires name in DefaultTools
  {
    if name in tools then Records(name, charts, run, parse) else []
  }

  /** What `scan` returns. */
  function ScanOf(tools: seq<string>, charts: seq<string>, run: Runner, parse: Parser): HelmResults {
    HelmResults(
      Column(tools, "kubescan", charts, run, parse),
      Column(tools, "kubeaudit", charts, run, parse),
      Column(tools, "helm-lint", charts, run, parse),
      Column(tools, "trivy", charts, run, parse))
  }

  lemma RecordsStep(name: string, charts: seq<string>, i: nat, run: Runner, parse: Parser)
    requires name in DefaultTools && i < |charts|
    ensures Records(name, charts[..i + 1], run, parse)
            == Records(name, charts[..i], run, parse) + [RunTool(name, charts[i], run, parse)]
  {
    assert charts[..i + 1][..i] == charts[..i];
  }

  /** One record per chart, the i-th for the i-th chart. */
  lemma {:induction false} RecordsPerChart(name: string, charts: seq<string>, run: Runner, parse: Parser)
    requires name in DefaultTools
    ensures |Records(name, charts, run, parse)| == |charts|
    ensures forall i :: 0 <= i < |charts| ==> Records(name, charts, run, parse)[i] == RunTool(name, charts[i], run, parse)
  {
    if |charts| > 0 {
      var init := charts[..|charts| - 1];
      RecordsPerChart(name, init, run, parse);
      forall i | 0 <= i < |charts|
        ensures Records(name, charts, run, parse)[i] == RunTool(name, charts[i], run, parse)
      {
        if i < |init| {
          assert charts[i] == init[i];
        }
      }
    }
  }

  /** A tool the configuration names has one record per chart, the i-th for the i-th
      chart; a tool it does not name leaves its list empty. */
  lemma ColumnPerChart(tools: seq<string>, name: string, charts: seq<string>, run: Runner, parse: Parser)
    requires name in DefaultTools
    ensures var col := Column(tools, name, charts, run, parse);
            && |col| == (if name in tools then |charts| else 0)
            && forall i :: 0 <= i < |col| ==> col[i] == RunTool(name, charts[i], run, parse)
  {
    RecordsPerChart(name, charts, run, parse);
  }

  /** `scan`: one pass over the charts, appending to the list of every tool the
      configuration names (the tool name `helm-lint` fills the list `helm_lint`). */
  method Scan(tools: seq<string>, charts: seq<string>, run: Runner, parse: Parser) returns (r: HelmResults)
    ensures r == ScanOf(tools, charts, run, parse)
  {
    var doKubescan, doKubeaudit := "kubescan" in tools, "kubeaudit" in tools;
    var doHelmLint, doTrivy := "helm-lint" in tools, "trivy" in tools;
    var kubescan: seq<Record> := [];
    var kubeaudit: seq<Record> := [];
    var helmLint: seq<Record> := [];
    var trivy: seq<Record> := [];
    for i := 0 to |charts|
      invariant kubescan == Column(tools, "kubescan", charts[..i], run, parse)
      invariant kubeaudit == Column(tools, "kubeaudit", charts[..i], run, parse)
      invariant helmLint == Column(tools, "helm-lint", charts[..i], run, parse)
      invariant trivy == Column(tools, "trivy", charts[..i], run, parse)
    {
      var chart := charts[i];
      if doKubescan {
        RecordsStep("kubescan", charts, i, run, parse);
        kubescan := kubescan + [Kubescan(chart, run, parse)];
      }
      if doKubeaudit {
        RecordsStep("kubeaudit", charts, i, run, parse);
        kubeaudit := kubeaudit + [Kubeaudit(chart, run)];
      }
      if doHelmLint {
        RecordsStep("helm-lint", charts, i, run, parse);
        helmLint := helmLint + [HelmLint(chart, run)];
      }
      if doTrivy {
        RecordsStep("trivy", charts, i, run, parse);
        trivy := trivy + [TrivyHelm(chart, run, parse)];
      }
    }
    assert charts[..|charts|] == charts;
    r := HelmResults(kubescan, kubeaudit, helmLint, trivy);
  }
}
