/** The SAST scanner: semgrep over the repository, and spotbugs over every built jar,
    the latter aborting as a whole when spotbugs turns out to be missing. */
module SastScanner {
  import opened Base

  /** The tools run when the configuration names none. */
  const DefaultTools: seq<string> := ["semgrep", "spotbugs"]

  /** The result dictionary: `None` for a tool that did not run. */
  datatype SastResults = SastResults(semgrep: Option<Report>, spotbugs: Option<Report>)

  function SemgrepCall(repo: string): (c: Invocation)
    ensures |c.argv| >= 1 && c.argv[0] == "semgrep" && c.argv[|c.argv| - 1] == repo && c.timeout == 600 && c.stdin == ""
  {
    Invocation(["semgrep", "scan", "--config", "auto", "--json", repo], 600, "", "")
  }

  function SpotbugsCall(jar: string): (c: Invocation)
    ensures |c.argv| >= 1 && c.argv[0] == "spotbugs" && c.argv[|c.argv| - 1] == jar && c.timeout == 300 && c.stdin == ""
  {
    Invocation(["spotbugs", "-textui", "-xml:withMessages", "-output", "/tmp/spotbugs-report.xml", jar], 300, "", "")
  }

  /** `_run_semgrep`: exit 0 (no findings) and exit 1 (findings) hand back semgrep's
      own JSON; any other exit code fails with stderr. */
  function Semgrep(repo: string, run: Runner, parse: Parser): (r: Report)
    ensures var o := run(SemgrepCall(repo));
            && (o.Exited? && (o.code == 0 || o.code == 1) ==> r == ParsedOrEmpty(o.stdout, parse))
            && (o.Exited? && o.code != 0 && o.code != 1 ==> r == Summary(Failed, ErrorText(o.stderr)))
            && (!o.Exited? ==> r == Summary(RaisedStatus(o), ErrorText(RaisedText(o, "Semgrep scan timed out", "Semgrep not installed"))))
  {
    ToolReport(run(SemgrepCall(repo)), {0, 1}, parse, "Semgrep scan timed out", "Semgrep not installed")
  }

  // ---------------------------------------------------------------- spotbugs

  /** The entry one jar contributes, for every outcome except a missing executable:
      completed with stdout iff the exit code is 0, failed with stderr otherwise, and
      a timeout or another exception recorded against the jar. */
  function SpotbugsEntry(jar: string, o: ProcOutcome): (r: Record)
    requires !o.NotFound?
    ensures r.target == jar
    ensures r.status == Completed <==> o.Exited? && o.code == 0
    ensures r.status == Completed ==> r.body == Output(o.stdout)
    ensures r.status == Failed <==> o.Exited? && o.code != 0
    ensures r.status == Failed ==> r.body == ErrorText(o.stderr)
    ensures o.TimedOut? ==> r == Record(jar, Timeout, ErrorText("SpotBugs scan timed out"))
    ensures o.Raised? ==> r == Record(jar, Error, ErrorText(o.msg))
  {
    match o
    case Exited(code, out, err) =>
      if code == 0 then Record(jar, Completed, Output(out)) else Record(jar, Failed, ErrorText(err))
    case TimedOut => Record(jar, Timeout, ErrorText("SpotBugs scan timed out"))
    case Raised(msg) => Record(jar, Error, ErrorText(msg))
  }

  /** The entries gathered over `jars`, or `None` once some jar's call finds no
      spotbugs executable. */
  function SpotbugsEntries(jars: seq<string>, run: Runner): Option<seq<Record>>
  {
    if |jars| == 0 then Some([])
    else
      match SpotbugsEntries(jars[..|jars| - 1], run)
      case None => None
      case Some(entries) =>
        var o := run(SpotbugsCall(jars[|jars| - 1]));
        if o.NotFound? then None else Some(entries + [SpotbugsEntry(jars[|jars| - 1], o)])
  }

  /** What `_run_spotbugs` returns. */
  function SpotbugsReport(jars: seq<string>, run: Runner): Report {
    match SpotbugsEntries(jars, run)
    case None => Summary(NotInstalled, ErrorText("SpotBugs not installed"))
    case Some(entries) => Summary(Completed, Entries(entries))
  }

  /** The entries are missing iff some jar's call finds no executable; otherwise there
      is exactly one entry per jar, in jar order. */
  lemma {:induction false} SpotbugsEntriesShape(jars: seq<string>, run: Runner)
    ensures SpotbugsEntries(jars, run).None? <==> exists i :: 0 <= i < |jars| && run(SpotbugsCall(jars[i])).NotFound?
    ensures SpotbugsEntries(jars, run).Some? ==>
              var es := SpotbugsEntries(jars, run).value;
              |es| == |jars| && forall i :: 0 <= i < |jars| ==> es[i] == SpotbugsEntry(jars[i], run(SpotbugsCall(jars[i])))
  {
    if |jars| > 0 {
      var init := jars[..|jars| - 1];
      SpotbugsEntriesShape(init, run);
      if exists i :: 0 <= i < |init| && run(SpotbugsCall(init[i])).NotFound? {
        var i :| 0 <= i < |init| && run(SpotbugsCall(init[i])).NotFound?;
        assert jars[i] == init[i];
      }
      if exists i :: 0 <= i < |jars| && run(SpotbugsCall(jars[i])).NotFound? {
        var i :| 0 <= i < |jars| && run(SpotbugsCall(jars[i])).NotFound?;
        if i < |init| {
          assert init[i] == jars[i];
        }
      }
    }
  }

  /** A missing executable discards whatever was already gathered. */
  lemma SpotbugsMissingAborts(jars: seq<string>, run: Runner, i: nat)
    requires i < |jars| && run(SpotbugsCall(jars[i])).NotFound?
    ensures SpotbugsReport(jars, run) == Summary(NotInstalled, ErrorText("SpotBugs not installed"))
  {
    SpotbugsEntriesShape(jars, run);
  }

  /** Otherwise the report is `completed`, even when every jar failed. */
  lemma SpotbugsCompletedEvenIfAllFail(jars: seq<string>, run: Runner)
    requires forall i :: 0 <= i < |jars| ==> run(SpotbugsCall(jars[i])).Exited? && run(SpotbugsCall(jars[i])).code != 0
    ensures SpotbugsReport(jars, run).status == Completed
    ensures forall e :: e in SpotbugsReport(jars, run).body.entries ==> e.status == Failed
  {
    SpotbugsEntriesShape(jars, run);
  }

  lemma SpotbugsEntriesStep(jars: seq<string>, i: nat, run: Runner)
    requires i < |jars|
    ensures jars[..i + 1][..i] == jars[..i]
    ensures SpotbugsEntries(jars[..i + 1], run)
            == match SpotbugsEntries(jars[..i], run)
               case None => None
               case Some(entries) =>
                 var o := run(SpotbugsCall(jars[i]));
                 if o.NotFound? then None else Some(entries + [SpotbugsEntry(jars[i], o)])
  {
    assert jars[..i + 1][..i] == jars[..i];
  }

  /** A prefix that already aborted makes the whole run abort. */
  lemma {:induction false} SpotbugsAbortStays(jars: seq<string>, i: nat, run: Runner)
    requires i <= |jars| && SpotbugsEntries(jars[..i], run).None?
    ensures SpotbugsEntries(jars, run).None?
    decreases |jars| - i
  {
    if i < |jars| {
      SpotbugsEntriesStep(jars, i, run);
      SpotbugsAbortStays(jars, i + 1, run);
    } else {
      assert jars[..i] == jars;
    }
  }

  /** `_run_spotbugs`: one call per jar, in order, gathering one entry each; a missing
      executable returns `not_installed` at once. */
  method RunSpotbugs(jars: seq<string>, run: Runner) returns (r: Report)
    ensures r == SpotbugsReport(jars, run)
  {
    var entries: seq<Record> := [];
    for i := 0 to |jars|
      invariant SpotbugsEntries(jars[..i], run) == Some(entries)
    {
      SpotbugsEntriesStep(jars, i, run);
      var o := run(SpotbugsCall(jars[i]));
      if o.NotFound? {
        SpotbugsAbortStays(jars, i + 1, run);
        return Summary(NotInstalled, ErrorText("SpotBugs not installed"));
      }
      entries := entries + [SpotbugsEntry(jars[i], o)];
    }
    assert jars[..|jars|] == jars;
    r := Summary(Completed, Entries(entries));
  }

  // ---------------------------------------------------------------- scan

  /** `scan`: semgrep when configured; spotbugs only when configured and some jar was
      found. */
  method Scan(tools: seq<string>, repo: string, jars: seq<string>, run: Runner, parse: Parser)
    returns (r: SastResults)
    ensures r.semgrep == if "semgrep" in tools then Some(Semgrep(repo, run, parse)) else None
    ensures r.spotbugs == if "spotbugs" in tools && jars != [] then Some(SpotbugsReport(jars, run)) else None
  {
    r := SastResults(None, None);
    if "semgrep" in tools {
      r := r.(semgrep := Some(Semgrep(repo, run, parse)));
    }
    if "spotbugs" in tools && jars != [] {
      var report := RunSpotbugs(jars, run);
      r := r.(spotbugs := Some(report));
    }
  }
}
