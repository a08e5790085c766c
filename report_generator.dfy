/** The report generator's own logic: the per-category summary counters, the cells of
    the markdown summary table read from them, and the choice of output format. */
module ReportGeneration {
  import opened Base
  import opened Text

  /** The five counters of one summary entry. */
  datatype Counts = Counts(critical: nat, high: nat, medium: nat, low: nat, info: nat)

  datatype Severity = Critical | High | Medium | Low | Info

  function CountOf(c: Counts, sev: Severity): nat {
    match sev
    case Critical => c.critical
    case High => c.high
    case Medium => c.medium
    case Low => c.low
    case Info => c.info
  }

  /** The summary dictionary, in insertion order. */
  type Summary = seq<(string, Counts)>

  function Keys<V>(entries: seq<(string, V)>): (ks: seq<string>)
    ensures |ks| == |entries|
    ensures forall i :: 0 <= i < |entries| ==> ks[i] == entries[i].0
  {
    seq(|entries|, i requires 0 <= i < |entries| => entries[i].0)
  }

  /** `len(scanner_results)` (its number of distinct keys) when it is a dictionary, 0 otherwise. */
  function InfoCount(v: Json): nat {
    if v.JObject? then KeyCount(v.members) else 0
  }

  /** The summary of `results`: one entry per category, in the same order, whose
      `info` is the category's key count. */
  function SummaryOf(results: seq<(string, Json)>): Summary {
    if |results| == 0 then []
    else
      var (name, value) := results[|results| - 1];
      SummaryOf(results[..|results| - 1]) + [(name, Counts(0, 0, 0, 0, InfoCount(value)))]
  }

  /** The summary has exactly the categories of the results, in their order; the four
      severity counters are always 0 and `info` counts a dictionary's keys. */
  lemma {:induction false} SummaryShape(results: seq<(string, Json)>)
    ensures Keys(SummaryOf(results)) == Keys(results)
    ensures forall i :: 0 <= i < |results| ==>
              SummaryOf(results)[i].1 == Counts(0, 0, 0, 0, if results[i].1.JObject? then KeyCount(results[i].1.members) else 0)
  {
    if |results| > 0 {
      SummaryShape(results[..|results| - 1]);
    }
  }

  lemma EmptyResultsEmptySummary()
    ensures SummaryOf([]) == []
  {
  }

  /** `_generate_summary`: for each category a zeroed entry is written, then its `info`
      counter is set when the category's results are a dictionary. */
  method GenerateSummary(results: seq<(string, Json)>) returns (summary: Summary)
    ensures summary == SummaryOf(results)
  {
    summary := [];
    for i := 0 to |results|
      invariant |summary| == i
      invariant summary == SummaryOf(results[..i])
    {
      var (name, value) := results[i];
      assert results[..i + 1][..i] == results[..i];
      summary := summary + [(name, Counts(0, 0, 0, 0, 0))];
      if value.JObject? {
        summary := summary[i := (name, summary[i].1.(info := KeyCount(value.members)))];
      }
    }
    assert results[..|results|] == results;
  }

  // ---------------------------------------------------------------- summary table

  function Lookup(summary: Summary, category: string): Option<Counts> {
    if |summary| == 0 then None
    else if summary[0].0 == category then Some(summary[0].1)
    else Lookup(summary[1..], category)
  }

  lemma {:induction false} LookupFound(summary: Summary, category: string)
    ensures Lookup(summary, category).None? <==> category !in Keys(summary)
    ensures Lookup(summary, category).Some? ==>
              exists i :: 0 <= i < |summary| && summary[i] == (category, Lookup(summary, category).value)
  {
    if |summary| > 0 {
      LookupFound(summary[1..], category);
      assert Keys(summary) == [summary[0].0] + Keys(summary[1..]);
      if Lookup(summary, category).Some? && summary[0].0 != category {
        var i :| 0 <= i < |summary[1..]| && summary[1..][i] == (category, Lookup(summary, category).value);
        assert summary[i + 1] == summary[1..][i];
      }
    }
  }

  /** `summary.get(category, {}).get(severity, 0)`: a category the summary lacks reads
      as 0 in every column. */
  function Cell(summary: Summary, category: string, sev: Severity): (n: nat)
    ensures category !in Keys(summary) ==> n == 0
  {
    LookupFound(summary, category);
    match Lookup(summary, category)
    case None => 0
    case Some(c) => CountOf(c, sev)
  }

  /** Read from a generated summary, every severity column is 0 and the `info` column
      is the key count of the category's results. */
  lemma CellOfGenerated(results: seq<(string, Json)>, category: string, sev: Severity)
    ensures var n := Cell(SummaryOf(results), category, sev);
            && (sev != Info ==> n == 0)
            && (category !in Keys(results) ==> n == 0)
            && (sev == Info && category in Keys(results) ==>
                  exists i :: 0 <= i < |results| && results[i].0 == category && n == InfoCount(results[i].1))
  {
    var s := SummaryOf(results);
    SummaryShape(results);
    LookupFound(s, category);
    if Lookup(s, category).Some? {
      var i :| 0 <= i < |s| && s[i] == (category, Lookup(s, category).value);
      assert Keys(s)[i] == Keys(results)[i];
    }
  }

  /** The categories of the markdown summary table, with their row labels. */
  const TableCategories: seq<(string, string)> :=
    [("Secrets", "secrets"), ("SAST", "sast"), ("Dependencies", "dependencies"), ("IaC", "iac"),
     ("Containers", "containers"), ("Helm", "helm"), ("Linting", "linting")]

  /** One row of the markdown summary table. */
  function TableRow(summary: Summary, heading: string, category: string): string {
    "| **" + heading + "** | " + NatToString(Cell(summary, category, Critical))
    + " | " + NatToString(Cell(summary, category, High))
    + " | " + NatToString(Cell(summary, category, Medium))
    + " | " + NatToString(Cell(summary, category, Low))
    + " | " + NatToString(Cell(summary, category, Info)) + " |"
  }

  /** A category without results renders as a row of zeros. */
  lemma AbsentCategoryRow(summary: Summary, heading: string, category: string)
    requires category !in Keys(summary)
    ensures TableRow(summary, heading, category) == "| **" + heading + "** | 0 | 0 | 0 | 0 | 0 |"
  {
    AbsentCategoryCells(summary, category);
    assert NatToString(0) == "0";
  }

  lemma AbsentCategoryCells(summary: Summary, category: string)
    requires category !in Keys(summary)
    ensures forall sev :: Cell(summary, category, sev) == 0
  {
  }

  // ---------------------------------------------------------------- dispatch

  /** The three report writers. */
  datatype Format = JsonReport | HtmlReport | MarkdownReport

  /** `generate`: the writer chosen by the format name; any other name writes nothing. */
  function FormatOf(name: string): (f: Option<Format>)
    ensures f == Some(JsonReport) <==> name == "json"
    ensures f == Some(HtmlReport) <==> name == "html"
    ensures f == Some(MarkdownReport) <==> name == "markdown"
    ensures f.None? <==> name !in {"json", "html", "markdown"}
  {
    if name == "json" then Some(JsonReport)
    else if name == "html" then Some(HtmlReport)
    else if name == "markdown" then Some(MarkdownReport)
    else None
  }
}
