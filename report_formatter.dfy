/** The report formatter: trivy, gitleaks and checkov results rendered as markdown
    and as HTML tables. Each rendering is a fold over the tool's JSON, written once
    for both styles; each formatter is a loop proved equal to its fold. */
module ReportFormatting {
  import opened Base
  import opened Text

  /** The two output styles. */
  datatype Style = Markdown | Html

  // ---------------------------------------------------------------- JSON access

  /** The value under `key`; when a key repeats, the last one wins, as in `json.loads`. */
  function Lookup(members: seq<(string, Json)>, key: string): Option<Json> {
    if |members| == 0 then None
    else if members[|members| - 1].0 == key then Some(members[|members| - 1].1)
    else Lookup(members[..|members| - 1], key)
  }

  lemma {:induction false} LookupIsMember(members: seq<(string, Json)>, key: string)
    ensures Lookup(members, key).Some? ==> exists i :: 0 <= i < |members| && members[i] == (key, Lookup(members, key).value)
  {
    if |members| > 0 && members[|members| - 1].0 != key {
      LookupIsMember(members[..|members| - 1], key);
      if Lookup(members, key).Some? {
        var i :| 0 <= i < |members| - 1 && members[..|members| - 1][i] == (key, Lookup(members, key).value);
        assert members[i] == members[..|members| - 1][i];
      }
    }
  }

  /** `obj.get(key, default)`. */
  function Get(obj: Json, key: string, default: Json): Json
    requires obj.JObject?
  {
    Lookup(obj.members, key).GetOr(default)
  }

  /** `str(j)` as an f-string renders it: a string as itself, anything else as its
      Python representation. */
  function Show(j: Json): string {
    if j.JString? then j.s else Repr(j)
  }

  /** `repr(j)` of a decoded value. */
  function Repr(j: Json): string
    decreases j, 1
  {
    match j
    case JNull => "None"
    case JBool(b) => if b then "True" else "False"
    case JNumber(n) => IntToString(n)
    case JString(s) => "'" + s + "'"
    case JArray(items) => "[" + ReprItems(items) + "]"
    case JObject(members) => "{" + ReprMembers(members) + "}"
  }

  function ReprItems(items: seq<Json>): string
    decreases items, 0
  {
    if |items| == 0 then ""
    else if |items| == 1 then Repr(items[0])
    else Repr(items[0]) + ", " + ReprItems(items[1..])
  }

  function ReprMembers(members: seq<(string, Json)>): string
    decreases members, 0
  {
    if |members| == 0 then ""
    else
      var (key, value) := members[0];
      assert value < members[0];
      var entry := "'" + key + "': " + Repr(value);
      if |members| == 1 then entry else entry + ", " + ReprMembers(members[1..])
  }

  /** `obj.get(key, default)` rendered into the output. */
  function Field(obj: Json, key: string, default: string): string
    requires obj.JObject?
  {
    Show(Get(obj, key, JString(default)))
  }

  /** The value under `key` is absent or a string, so a string method may be applied. */
  predicate StringOrAbsent(obj: Json, key: string)
    requires obj.JObject?
  {
    Lookup(obj.members, key).None? || Lookup(obj.members, key).value.JString?
  }

  /** `obj.get(key, default)` where that is known to be a string. */
  function StringField(obj: Json, key: string, default: string): (s: string)
    requires obj.JObject? && StringOrAbsent(obj, key)
    ensures s == Field(obj, key, default)
    ensures Lookup(obj.members, key).None? ==> s == default
  {
    Get(obj, key, JString(default)).s
  }

  /** A list of dictionaries. */
  predicate ObjectList(j: Json) {
    j.JArray? && forall i :: 0 <= i < |j.items| ==> j.items[i].JObject?
  }

  /** `len(j)`, for the values that have a length. */
  predicate Sized(j: Json) {
    j.JArray? || j.JObject? || j.JString?
  }

  function Size(j: Json): nat
    requires Sized(j)
  {
    match j
    case JArray(items) => |items|
    case JObject(members) => KeyCount(members)
    case JString(s) => |s|
  }

  // ---------------------------------------------------------------- lines

  predicate NoBreak(s: string) {
    '\n' !in s
  }

  /** The number of lines a rendered piece ends: its newline characters. */
  function Lines(s: string): nat {
    if |s| == 0 then 0 else Lines(s[..|s| - 1]) + (if s[|s| - 1] == '\n' then 1 else 0)
  }

  /** Every value of the dictionary renders on one line. */
  predicate Plain(obj: Json)
    requires obj.JObject?
  {
    forall i :: 0 <= i < |obj.members| ==> NoBreak(Show(obj.members[i].1))
  }

  lemma PlainField(obj: Json, key: string, default: string)
    requires obj.JObject? && Plain(obj) && NoBreak(default)
    ensures NoBreak(Field(obj, key, default))
  {
    LookupIsMember(obj.members, key);
  }

  /** The opening every non-empty trivy or checkov rendering starts with. */
  function Lead(style: Style): string {
    match style
    case Markdown => "\n"
    case Html => "<h4>"
  }

  // ---------------------------------------------------------------- trivy

  /** Table pieces shared by the formatters. */
  const VulnColumnsMd: string := "| CVE ID | Severity | Package | Installed | Fixed | Title |\n"
  const VulnRuleMd: string := "|--------|----------|---------|-----------|-------|-------|\n"
  const VulnColumnsHtml: string := "<thead><tr><th>CVE ID</th><th>Severity</th><th>Package</th><th>Installed</th><th>Fixed</th><th>Title</th></tr></thead>\n"
  const TableOpen: string := "<table class=\"vuln-table\">\n"
  const TableClose: string := "</tbody>\n</table>\n"

  function NoVulnerabilities(style: Style): string {
    match style
    case Markdown => "_No vulnerabilities found_\n"
    case Html => "<p><em>No vulnerabilities found</em></p>"
  }

  /** The key whose value the style applies a string method to: the markdown title is
      sliced, the HTML severity is lower-cased. */
  function StringKey(style: Style): string {
    match style
    case Markdown => "Title"
    case Html => "Severity"
  }

  predicate VulnShaped(style: Style, v: Json) {
    v.JObject? && StringOrAbsent(v, StringKey(style))
  }

  predicate VulnsShaped(style: Style, vs: seq<Json>) {
    forall i :: 0 <= i < |vs| ==> VulnShaped(style, vs[i])
  }

  /** `result.get('Vulnerabilities', [])`. */
  function Vulnerabilities(result: Json): Json
    requires result.JObject?
  {
    Get(result, "Vulnerabilities", JArray([]))
  }

  predicate ResultShaped(style: Style, r: Json) {
    && r.JObject?
    && (Truthy(Vulnerabilities(r)) ==> Vulnerabilities(r).JArray? && VulnsShaped(style, Vulnerabilities(r).items))
  }

  predicate ResultsShaped(style: Style, rs: seq<Json>) {
    forall i :: 0 <= i < |rs| ==> ResultShaped(style, rs[i])
  }

  /** `trivy_data.get('Results', [])`. */
  function TrivyResults(data: Json): Json
    requires data.JObject?
  {
    Get(data, "Results", JArray([]))
  }

  /** The input the trivy formatters accept without raising: once past the empty-input
      check, the results are a list of dictionaries whose vulnerabilities, when present,
      are a list of dictionaries carrying a string where a string method is applied. */
  predicate TrivyShaped(style: Style, data: Json) {
    Truthy(data) && data.JObject? && Truthy(TrivyResults(data)) ==>
      TrivyResults(data).JArray? && ResultsShaped(style, TrivyResults(data).items)
  }

  /** The markdown title cell: the title cut to 60 characters. */
  function TitleCell(v: Json): (t: string)
    requires VulnShaped(Markdown, v)
    ensures var title := StringField(v, "Title", "No description");
            && t <= title
            && |t| == (if |title| <= 60 then |title| else 60)
            && (t == title <==> |title| <= 60)
  {
    Take(StringField(v, "Title", "No description"), 60)
  }

  /** The HTML severity cell's class. */
  function SeverityClass(severity: string): (c: string)
    ensures |c| == 9 + |severity| && c[..9] == "severity-"
    ensures forall k :: 0 <= k < |severity| ==> c[9 + k] == LowerChar(severity[k])
    ensures Lower(c[9..]) == c[9..]
  {
    LowerIsIdempotent(severity);
    assert ("severity-" + Lower(severity))[9..] == Lower(severity);
    "severity-" + Lower(severity)
  }

  /** The markdown row's f-string over its six cells. */
  function VulnLineMd(cveId: string, severity: string, pkgName: string, installed: string, fixed: string, title: string): string {
    "| " + cveId + " | **" + severity + "** | " + pkgName + " | " + installed + " | " + fixed + " | " + title + " |" + "\n"
  }

  /** The HTML row's f-strings over its cells. */
  function VulnLineHtml(cveId: string, severityClass: string, severity: string, pkgName: string, installed: string,
                        fixed: string, title: string): string {
    "<tr><td><code>" + cveId + "</code></td>"
    + "<td class=\"" + severityClass + "\"><strong>" + severity + "</strong></td>"
    + "<td>" + pkgName + "</td><td>" + installed + "</td><td>" + fixed + "</td>"
    + "<td>" + title + "</td></tr>" + "\n"
  }

  /** One table row per vulnerability. */
  function VulnRow(style: Style, v: Json): string
    requires VulnShaped(style, v)
  {
    match style
    case Markdown =>
      VulnLineMd(Field(v, "VulnerabilityID", "N/A"), Field(v, "Severity", "UNKNOWN"), Field(v, "PkgName", "N/A"),
                 Field(v, "InstalledVersion", "N/A"), Field(v, "FixedVersion", "Not available"), TitleCell(v))
    case Html =>
      var severity := StringField(v, "Severity", "UNKNOWN");
      VulnLineHtml(Field(v, "VulnerabilityID", "N/A"), SeverityClass(severity), severity, Field(v, "PkgName", "N/A"),
                   Field(v, "InstalledVersion", "N/A"), Field(v, "FixedVersion", "Not available"),
                   Field(v, "Title", "No description"))
  }

  function VulnRows(style: Style, vs: seq<Json>): string
    requires VulnsShaped(style, vs)
  {
    if |vs| == 0 then "" else VulnRows(style, vs[..|vs| - 1]) + VulnRow(style, vs[|vs| - 1])
  }

  /** The heading and table header of one result's section. */
  function ResultHead(style: Style, target: string): string {
    match style
    case Markdown =>
      "\n#### " + target + "\n\n"
      + VulnColumnsMd
      + VulnRuleMd
    case Html =>
      "<h4>" + target + "</h4>\n"
      + TableOpen
      + VulnColumnsHtml
      + "<tbody>\n"
  }

  function ResultFoot(style: Style): string {
    match style
    case Markdown => "\n"
    case Html => TableClose
  }

  /** One result's section; nothing for a result without vulnerabilities. */
  function ResultBlock(style: Style, r: Json): string
    requires ResultShaped(style, r)
  {
    var vulns := Vulnerabilities(r);
    if !Truthy(vulns) then ""
    else ResultHead(style, Field(r, "Target", "Unknown")) + VulnRows(style, vulns.items) + ResultFoot(style)
  }

  function ResultBlocks(style: Style, rs: seq<Json>): string
    requires ResultsShaped(style, rs)
  {
    if |rs| == 0 then "" else ResultBlocks(style, rs[..|rs| - 1]) + ResultBlock(style, rs[|rs| - 1])
  }

  lemma VulnRowsStep(style: Style, vs: seq<Json>, j: nat)
    requires j < |vs| && VulnsShaped(style, vs)
    ensures VulnsShaped(style, vs[..j]) && VulnsShaped(style, vs[..j + 1])
    ensures VulnRows(style, vs[..j + 1]) == VulnRows(style, vs[..j]) + VulnRow(style, vs[j])
  {
    assert vs[..j + 1][..j] == vs[..j];
  }

  lemma ResultBlocksStep(style: Style, rs: seq<Json>, i: nat)
    requires i < |rs| && ResultsShaped(style, rs)
    ensures ResultsShaped(style, rs[..i]) && ResultsShaped(style, rs[..i + 1])
    ensures ResultBlocks(style, rs[..i + 1]) == ResultBlocks(style, rs[..i]) + ResultBlock(style, rs[i])
  {
    assert rs[..i + 1][..i] == rs[..i];
  }

  /** What `format_trivy_results_markdown` and `format_trivy_results_html` return. */
  function Trivy(style: Style, data: Json): string
    requires TrivyShaped(style, data)
  {
    if !Truthy(data) || !data.JObject? then NoVulnerabilities(style)
    else if !Truthy(TrivyResults(data)) then NoVulnerabilities(style)
    else ResultBlocks(style, TrivyResults(data).items)
  }

  /** `format_trivy_results_markdown`. */
  method FormatTrivyMarkdown(data: Json) returns (md: string)
    requires TrivyShaped(Markdown, data)
    ensures md == Trivy(Markdown, data)
  {
    if !Truthy(data) || !data.JObject? {
      return "_No vulnerabilities found_\n";
    }
    var results := Get(data, "Results", JArray([]));
    if !Truthy(results) {
      return "_No vulnerabilities found_\n";
    }
    var rs := results.items;
    md := "";
    for i := 0 to |rs|
      invariant md == ResultBlocks(Markdown, rs[..i])
    {
      ResultBlocksStep(Markdown, rs, i);
      var block := TrivyResultMarkdown(rs[i]);
      md := md + block;
    }
    assert rs[..|rs|] == rs;
  }

  /** One pass of the loop over results in `format_trivy_results_markdown`. */
  method TrivyResultMarkdown(result: Json) returns (block: string)
    requires ResultShaped(Markdown, result)
    ensures block == ResultBlock(Markdown, result)
  {
    var target := Field(result, "Target", "Unknown");
    var vulns := Get(result, "Vulnerabilities", JArray([]));
    if !Truthy(vulns) {
      return "";
    }
    block := "\n#### " + target + "\n\n";
    block := block + VulnColumnsMd;
    block := block + VulnRuleMd;
    assert block == ResultHead(Markdown, target);
    block := VulnTableMarkdown(block, vulns.items);
    block := block + "\n";
  }

  /** `format_trivy_results_html`. */
  method FormatTrivyHtml(data: Json) returns (html: string)
    requires TrivyShaped(Html, data)
    ensures html == Trivy(Html, data)
  {
    if !Truthy(data) || !data.JObject? {
      return "<p><em>No vulnerabilities found</em></p>";
    }
    var results := Get(data, "Results", JArray([]));
    if !Truthy(results) {
      return "<p><em>No vulnerabilities found</em></p>";
    }
    var rs := results.items;
    html := "";
    for i := 0 to |rs|
      invariant html == ResultBlocks(Html, rs[..i])
    {
      ResultBlocksStep(Html, rs, i);
      var block := TrivyResultHtml(rs[i]);
      html := html + block;
    }
    assert rs[..|rs|] == rs;
  }

  /** One pass of the loop over results in `format_trivy_results_html`. */
  method TrivyResultHtml(result: Json) returns (block: string)
    requires ResultShaped(Html, result)
    ensures block == ResultBlock(Html, result)
  {
    var target := Field(result, "Target", "Unknown");
    var vulns := Get(result, "Vulnerabilities", JArray([]));
    if !Truthy(vulns) {
      return "";
    }
    block := "<h4>" + target + "</h4>\n";
    block := block + TableOpen;
    block := block + VulnColumnsHtml;
    block := block + "<tbody>\n";
    assert block == ResultHead(Html, target);
    block := VulnTableHtml(block, vulns.items);
    block := block + TableClose;
  }

  /** The loop over vulnerabilities in `format_trivy_results_markdown`: one row per
      vulnerability, appended to `head`. */
  method VulnTableMarkdown(head: string, vs: seq<Json>) returns (block: string)
    requires VulnsShaped(Markdown, vs)
    ensures block == head + VulnRows(Markdown, vs)
  {
    block := head;
    for j := 0 to |vs|
      invariant block == head + VulnRows(Markdown, vs[..j])
    {
      VulnRowsStep(Markdown, vs, j);
      var row := VulnRowMarkdown(vs[j]);
      AppendAssoc(head, VulnRows(Markdown, vs[..j]), row);
      block := block + row;
    }
    assert vs[..|vs|] == vs;
  }

  /** The body of the loop over vulnerabilities in `format_trivy_results_markdown`. */
  method VulnRowMarkdown(vuln: Json) returns (row: string)
    requires VulnShaped(Markdown, vuln)
    ensures row == VulnRow(Markdown, vuln)
  {
    var cveId := Field(vuln, "VulnerabilityID", "N/A");
    var severity := Field(vuln, "Severity", "UNKNOWN");
    var pkgName := Field(vuln, "PkgName", "N/A");
    var installed := Field(vuln, "InstalledVersion", "N/A");
    var fixed := Field(vuln, "FixedVersion", "Not available");
    var title := Take(StringField(vuln, "Title", "No description"), 60);
    row := VulnLineMd(cveId, severity, pkgName, installed, fixed, title);
  }

  /** The loop over vulnerabilities in `format_trivy_results_html`: one row per
      vulnerability, appended to `head`. */
  method VulnTableHtml(head: string, vs: seq<Json>) returns (block: string)
    requires VulnsShaped(Html, vs)
    ensures block == head + VulnRows(Html, vs)
  {
    block := head;
    for j := 0 to |vs|
      invariant block == head + VulnRows(Html, vs[..j])
    {
      VulnRowsStep(Html, vs, j);
      var row := VulnRowHtml(vs[j]);
      AppendAssoc(head, VulnRows(Html, vs[..j]), row);
      block := block + row;
    }
    assert vs[..|vs|] == vs;
  }

  /** The body of the loop over vulnerabilities in `format_trivy_results_html`. */
  method VulnRowHtml(vuln: Json) returns (row: string)
    requires VulnShaped(Html, vuln)
    ensures row == VulnRow(Html, vuln)
  {
    var cveId := Field(vuln, "VulnerabilityID", "N/A");
    var severity := StringField(vuln, "Severity", "UNKNOWN");
    var pkgName := Field(vuln, "PkgName", "N/A");
    var installed := Field(vuln, "InstalledVersion", "N/A");
    var fixed := Field(vuln, "FixedVersion", "Not available");
    var title := Field(vuln, "Title", "No description");
    var severityClass := SeverityClass(severity);
    row := VulnLineHtml(cveId, severityClass, severity, pkgName, installed, fixed, title);
  }

  // ---------------------------------------------------------------- trivy properties

  lemma PrefixOfAppend(a: string, b: string)
    ensures a <= a + b
  {
    assert (a + b)[..|a|] == a;
  }

  /** A text that starts with `lead` is not `other` when the two differ at `k`. */
  lemma PrefixMismatch(out: string, lead: string, other: string, k: nat)
    requires lead <= out && k < |lead| && k < |other| && lead[k] != other[k]
    ensures out != other
  {
    assert out[k] == lead[k];
  }

  /** A rendering that is empty or opens with a heading is none of the fallback texts,
      which open with `_` (markdown) or `<p>` (HTML). */
  lemma NotFallback(style: Style, out: string, fallback: string)
    requires out == "" || Lead(style) <= out
    requires |fallback| > 1
    requires style == Markdown ==> fallback[0] == '_'
    requires style == Html ==> fallback[1] == 'p'
    ensures out != fallback
  {
    if out != "" {
      match style
      case Markdown => PrefixMismatch(out, Lead(style), fallback, 0);
      case Html => PrefixMismatch(out, Lead(style), fallback, 1);
    }
  }

  lemma MarkdownNotFallback(out: string)
    requires out == "" || Lead(Markdown) <= out
    ensures out != NoIssues(Markdown) && out != NoVulnerabilities(Markdown)
  {
    NotFallback(Markdown, out, NoIssues(Markdown));
    NotFallback(Markdown, out, NoVulnerabilities(Markdown));
  }

  lemma HtmlNotFallback(out: string)
    requires out == "" || Lead(Html) <= out
    ensures out != NoIssues(Html) && out != NoVulnerabilities(Html)
  {
    NotFallback(Html, out, NoIssues(Html));
    NotFallback(Html, out, NoVulnerabilities(Html));
  }

  lemma PrefixTransitive(a: string, b: string, c: string)
    requires a <= b && b <= c
    ensures a <= c
  {
    assert c[..|b|][..|a|] == c[..|a|];
  }

  lemma ResultHeadLead(style: Style, target: string)
    ensures Lead(style) <= ResultHead(style, target)
  {
    var head := ResultHead(style, target);
    match style
    case Markdown =>
      assert head[0] == '\n';
      assert head[..1] == Lead(style);
    case Html =>
      assert head[..4] == Lead(style);
  }

  /** A non-empty section of one result starts with its heading. */
  lemma ResultBlockLead(style: Style, r: Json)
    requires ResultShaped(style, r)
    ensures ResultBlock(style, r) == "" || Lead(style) <= ResultBlock(style, r)
  {
    var vulns := Vulnerabilities(r);
    if Truthy(vulns) {
      var head := ResultHead(style, Field(r, "Target", "Unknown"));
      var rows := VulnRows(style, vulns.items);
      ResultHeadLead(style, Field(r, "Target", "Unknown"));
      AppendAssoc(head, rows, ResultFoot(style));
      PrefixOfAppend(head, rows + ResultFoot(style));
      PrefixTransitive(Lead(style), head, ResultBlock(style, r));
    }
  }

  /** A non-empty rendering of trivy results starts with a section heading. */
  lemma {:induction false} ResultBlocksLead(style: Style, rs: seq<Json>)
    requires ResultsShaped(style, rs)
    ensures ResultBlocks(style, rs) == "" || Lead(style) <= ResultBlocks(style, rs)
  {
    if |rs| > 0 {
      var init := rs[..|rs| - 1];
      var last := rs[|rs| - 1];
      assert ResultsShaped(style, init);
      ResultBlocksLead(style, init);
      var a := ResultBlocks(style, init);
      var b := ResultBlock(style, last);
      assert ResultBlocks(style, rs) == a + b;
      if a == "" {
        ResultBlockLead(style, last);
        assert a + b == b;
      } else {
        PrefixOfAppend(a, b);
        PrefixTransitive(Lead(style), a, a + b);
      }
    }
  }

  /** The trivy formatters fall back to the "No vulnerabilities found" text exactly when
      the input is empty, not a dictionary, or has no results. */
  lemma TrivyFallbackIff(style: Style, data: Json)
    requires TrivyShaped(style, data)
    ensures Trivy(style, data) == NoVulnerabilities(style)
            <==> !Truthy(data) || !data.JObject? || !Truthy(TrivyResults(data))
  {
    if Truthy(data) && data.JObject? && Truthy(TrivyResults(data)) {
      ResultBlocksNotFallback(style, TrivyResults(data).items);
    }
  }

  lemma ResultBlocksNotFallback(style: Style, rs: seq<Json>)
    requires ResultsShaped(style, rs)
    ensures ResultBlocks(style, rs) != NoVulnerabilities(style)
  {
    ResultBlocksLead(style, rs);
    match style
    case Markdown => MarkdownNotFallback(ResultBlocks(Markdown, rs));
    case Html => HtmlNotFallback(ResultBlocks(Html, rs));
  }

  /** A result contributes no output exactly when it has no vulnerabilities; every
      result contributes its own section and nothing else (`ResultBlocksStep`). */
  lemma VulnerabilityFreeResultIsSilent(style: Style, r: Json)
    requires ResultShaped(style, r)
    ensures ResultBlock(style, r) == "" <==> !Truthy(Vulnerabilities(r))
  {
    if Truthy(Vulnerabilities(r)) {
      ResultBlockLead(style, r);
      assert |Lead(style)| > 0;
    }
  }

  lemma {:induction false} LinesAppend(a: string, b: string)
    ensures Lines(a + b) == Lines(a) + Lines(b)
  {
    if |b| == 0 {
      assert a + b == a;
    } else {
      LinesAppend(a, b[..|b| - 1]);
      assert (a + b)[..|a + b| - 1] == a + b[..|b| - 1];
    }
  }

  lemma {:induction false} LinesBreakFree(s: string)
    requires NoBreak(s)
    ensures Lines(s) == 0
  {
    if |s| > 0 {
      assert s[|s| - 1] in s;
      assert NoBreak(s[..|s| - 1]) by {
        forall c | c in s[..|s| - 1] ensures c in s { }
      }
      LinesBreakFree(s[..|s| - 1]);
    }
  }

  lemma LinesOfNewline(s: string)
    requires NoBreak(s)
    ensures Lines(s + "\n") == 1
  {
    LinesBreakFree(s);
    assert (s + "\n")[..|s|] == s;
  }

  lemma LowerKeepsBreaks(s: string)
    requires NoBreak(s)
    ensures NoBreak(Lower(s))
  {
    var r := Lower(s);
    forall k | 0 <= k < |r|
      ensures r[k] != '\n'
    {
      assert r[k] == LowerChar(s[k]) && s[k] != '\n';
    }
  }

  lemma MarkdownVulnLineIsOneLine(cveId: string, severity: string, pkgName: string, installed: string, fixed: string, title: string)
    requires NoBreak(cveId) && NoBreak(severity) && NoBreak(pkgName) && NoBreak(installed) && NoBreak(fixed) && NoBreak(title)
    ensures Lines(VulnLineMd(cveId, severity, pkgName, installed, fixed, title)) == 1
  {
    LinesOfNewline("| " + cveId + " | **" + severity + "** | " + pkgName + " | " + installed + " | " + fixed + " | " + title + " |");
  }

  lemma HtmlVulnLineIsOneLine(cveId: string, severityClass: string, severity: string, pkgName: string, installed: string,
                              fixed: string, title: string)
    requires NoBreak(cveId) && NoBreak(severityClass) && NoBreak(severity) && NoBreak(pkgName)
    requires NoBreak(installed) && NoBreak(fixed) && NoBreak(title)
    ensures Lines(VulnLineHtml(cveId, severityClass, severity, pkgName, installed, fixed, title)) == 1
  {
    LinesOfNewline("<tr><td><code>" + cveId + "</code></td>"
                   + "<td class=\"" + severityClass + "\"><strong>" + severity + "</strong></td>"
                   + "<td>" + pkgName + "</td><td>" + installed + "</td><td>" + fixed + "</td>"
                   + "<td>" + title + "</td></tr>");
  }

  /** A vulnerability whose values each fit on one line renders as exactly one line. */
  lemma VulnRowIsOneLine(style: Style, v: Json)
    requires VulnShaped(style, v) && Plain(v)
    ensures Lines(VulnRow(style, v)) == 1
  {
    PlainField(v, "VulnerabilityID", "N/A");
    PlainField(v, "Severity", "UNKNOWN");
    PlainField(v, "PkgName", "N/A");
    PlainField(v, "InstalledVersion", "N/A");
    PlainField(v, "FixedVersion", "Not available");
    PlainField(v, "Title", "No description");
    match style
    case Markdown =>
      var t := TitleCell(v);
      var title := StringField(v, "Title", "No description");
      assert NoBreak(t) by {
        forall k | 0 <= k < |t| ensures t[k] != '\n' { assert t[k] == title[k]; }
      }
      MarkdownVulnLineIsOneLine(Field(v, "VulnerabilityID", "N/A"), Field(v, "Severity", "UNKNOWN"), Field(v, "PkgName", "N/A"),
                                Field(v, "InstalledVersion", "N/A"), Field(v, "FixedVersion", "Not available"), t);
    case Html =>
      var severity := StringField(v, "Severity", "UNKNOWN");
      LowerKeepsBreaks(severity);
      HtmlVulnLineIsOneLine(Field(v, "VulnerabilityID", "N/A"), SeverityClass(severity), severity, Field(v, "PkgName", "N/A"),
                            Field(v, "InstalledVersion", "N/A"), Field(v, "FixedVersion", "Not available"),
                            Field(v, "Title", "No description"));
  }

  /** Each vulnerability contributes exactly one table row. */
  lemma {:induction false} VulnRowsOnePerVulnerability(style: Style, vs: seq<Json>)
    requires VulnsShaped(style, vs)
    requires forall i :: 0 <= i < |vs| ==> Plain(vs[i])
    ensures Lines(VulnRows(style, vs)) == |vs|
  {
    if |vs| > 0 {
      var init := vs[..|vs| - 1];
      assert VulnsShaped(style, init);
      VulnRowsOnePerVulnerability(style, init);
      VulnRowIsOneLine(style, vs[|vs| - 1]);
      LinesAppend(VulnRows(style, init), VulnRow(style, vs[|vs| - 1]));
    }
  }

  lemma AbsentField(obj: Json, key: string, default: string)
    requires obj.JObject? && Lookup(obj.members, key).None?
    ensures Field(obj, key, default) == default
  {
  }

  /** A vulnerability without any of the six fields renders their defaults. */
  lemma MissingFieldsDefaultMarkdown()
    ensures VulnRow(Markdown, JObject([])) == VulnLineMd("N/A", "UNKNOWN", "N/A", "N/A", "Not available", "No description")
  {
    var v := JObject([]);
    assert StringField(v, "Title", "No description") == "No description";
    assert Take("No description", 60) == "No description";
  }

  /** The same in HTML, where the default severity gives the class `severity-unknown`. */
  lemma MissingFieldsDefaultHtml()
    ensures VulnRow(Html, JObject([]))
            == VulnLineHtml("N/A", "severity-unknown", "UNKNOWN", "N/A", "N/A", "Not available", "No description")
  {
    var v := JObject([]);
    assert StringField(v, "Severity", "UNKNOWN") == "UNKNOWN";
    assert SeverityClass("UNKNOWN") == "severity-unknown" by {
      assert Lower("UNKNOWN") == "unknown";
    }
  }

  /** The markdown title is cut to 60 characters; the HTML row carries the whole title. */
  lemma HtmlKeepsWholeTitle(v: Json)
    requires VulnShaped(Html, v)
    ensures Contains(VulnRow(Html, v), Field(v, "Title", "No description"))
  {
    var title := Field(v, "Title", "No description");
    var severity := StringField(v, "Severity", "UNKNOWN");
    var before := "<tr><td><code>" + Field(v, "VulnerabilityID", "N/A") + "</code></td>"
                  + "<td class=\"" + SeverityClass(severity) + "\"><strong>" + severity + "</strong></td>"
                  + "<td>" + Field(v, "PkgName", "N/A") + "</td><td>" + Field(v, "InstalledVersion", "N/A")
                  + "</td><td>" + Field(v, "FixedVersion", "Not available") + "</td>"
                  + "<td>";
    assert VulnRow(Html, v) == before + title + "</td></tr>" + "\n";
    ContainsSuffix(before, title);
    ContainsGrow(before + title, "</td></tr>", title);
    ContainsGrow(before + title + "</td></tr>", "\n", title);
  }

  // ---------------------------------------------------------------- gitleaks

  function NoSecrets(style: Style): string {
    match style
    case Markdown => "_No secrets found_\n"
    case Html => "<p><em>No secrets found</em></p>"
  }

  /** A finding is a dictionary whose `Match`, when present, is a string. */
  predicate LeakShaped(f: Json) {
    f.JObject? && StringOrAbsent(f, "Match")
  }

  predicate LeaksShaped(fs: seq<Json>) {
    forall i :: 0 <= i < |fs| ==> LeakShaped(fs[i])
  }

  /** The input the gitleaks formatters accept without raising. */
  predicate GitleaksShaped(data: Json) {
    Truthy(data) && data.JArray? ==> LeaksShaped(data.items)
  }

  /** A match longer than 50 characters is cut to 50 and marked with `...`; a shorter
      one is shown whole. */
  function Clip(m: string): (r: string)
    ensures |m| <= 50 ==> r == m
    ensures |m| > 50 ==> |r| == 53 && m[..50] <= r && EndsWith(r, "...")
  {
    if |m| > 50 then m[..50] + "..." else m
  }

  function LeakLineMd(file: string, line: string, rule: string, shown: string): string {
    "| `" + file + "` | " + line + " | " + rule + " | `" + shown + "` |" + "\n"
  }

  function LeakLineHtml(file: string, line: string, rule: string, shown: string): string {
    "<tr><td><code>" + file + "</code></td>" + "<td>" + line + "</td><td>" + rule + "</td>"
    + "<td><code>" + shown + "</code></td></tr>" + "\n"
  }

  /** One table row per finding. */
  function LeakRow(style: Style, f: Json): string
    requires LeakShaped(f)
  {
    var file := Field(f, "File", "Unknown");
    var line := Field(f, "StartLine", "N/A");
    var rule := Field(f, "RuleID", "Unknown");
    var shown := Clip(StringField(f, "Match", ""));
    match style
    case Markdown => LeakLineMd(file, line, rule, shown)
    case Html => LeakLineHtml(file, line, rule, shown)
  }

  function LeakRows(style: Style, fs: seq<Json>): string
    requires LeaksShaped(fs)
  {
    if |fs| == 0 then "" else LeakRows(style, fs[..|fs| - 1]) + LeakRow(style, fs[|fs| - 1])
  }

  lemma LeakRowsStep(style: Style, fs: seq<Json>, i: nat)
    requires i < |fs| && LeaksShaped(fs)
    ensures LeaksShaped(fs[..i]) && LeaksShaped(fs[..i + 1])
    ensures LeakRows(style, fs[..i + 1]) == LeakRows(style, fs[..i]) + LeakRow(style, fs[i])
  {
    assert fs[..i + 1][..i] == fs[..i];
  }

  function LeakHead(style: Style): string {
    match style
    case Markdown => "\n| File | Line | Secret Type | Match |\n" + "|------|------|-------------|-------|\n"
    case Html => TableOpen + "<thead><tr><th>File</th><th>Line</th><th>Secret Type</th><th>Match</th></tr></thead>\n" + "<tbody>\n"
  }

  function LeakFoot(style: Style): string {
    match style
    case Markdown => ""
    case Html => TableClose
  }

  /** What `format_gitleaks_results_markdown` and `format_gitleaks_results_html` return. */
  function Gitleaks(style: Style, data: Json): string
    requires GitleaksShaped(data)
  {
    if !Truthy(data) || !data.JArray? then NoSecrets(style)
    else LeakHead(style) + LeakRows(style, data.items) + LeakFoot(style)
  }

  /** `format_gitleaks_results_markdown`. */
  method FormatGitleaksMarkdown(data: Json) returns (md: string)
    requires GitleaksShaped(data)
    ensures md == Gitleaks(Markdown, data)
  {
    if !Truthy(data) || !data.JArray? {
      return "_No secrets found_\n";
    }
    md := "\n| File | Line | Secret Type | Match |\n";
    md := md + "|------|------|-------------|-------|\n";
    assert md == LeakHead(Markdown);
    md := LeakTableMarkdown(md, data.items);
  }

  /** The loop over findings in `format_gitleaks_results_markdown`. */
  method LeakTableMarkdown(head: string, fs: seq<Json>) returns (md: string)
    requires LeaksShaped(fs)
    ensures md == head + LeakRows(Markdown, fs)
  {
    md := head;
    for i := 0 to |fs|
      invariant md == head + LeakRows(Markdown, fs[..i])
    {
      LeakRowsStep(Markdown, fs, i);
      var finding := fs[i];
      var filePath := Field(finding, "File", "Unknown");
      var line := Field(finding, "StartLine", "N/A");
      var ruleId := Field(finding, "RuleID", "Unknown");
      var m := StringField(finding, "Match", "");
      var shown := if |m| > 50 then m[..50] + "..." else m;
      var row := LeakLineMd(filePath, line, ruleId, shown);
      AppendAssoc(head, LeakRows(Markdown, fs[..i]), row);
      md := md + row;
    }
    assert fs[..|fs|] == fs;
  }

  /** `format_gitleaks_results_html`. */
  method FormatGitleaksHtml(data: Json) returns (html: string)
    requires GitleaksShaped(data)
    ensures html == Gitleaks(Html, data)
  {
    if !Truthy(data) || !data.JArray? {
      return "<p><em>No secrets found</em></p>";
    }
    html := TableOpen;
    html := html + "<thead><tr><th>File</th><th>Line</th><th>Secret Type</th><th>Match</th></tr></thead>\n";
    html := html + "<tbody>\n";
    assert html == LeakHead(Html);
    html := LeakTableHtml(html, data.items);
    html := html + TableClose;
  }

  /** The loop over findings in `format_gitleaks_results_html`. */
  method LeakTableHtml(head: string, fs: seq<Json>) returns (html: string)
    requires LeaksShaped(fs)
    ensures html == head + LeakRows(Html, fs)
  {
    html := head;
    for i := 0 to |fs|
      invariant html == head + LeakRows(Html, fs[..i])
    {
      LeakRowsStep(Html, fs, i);
      var finding := fs[i];
      var filePath := Field(finding, "File", "Unknown");
      var line := Field(finding, "StartLine", "N/A");
      var ruleId := Field(finding, "RuleID", "Unknown");
      var shown := StringField(finding, "Match", "");
      if |shown| > 50 {
        shown := shown[..50] + "...";
      }
      var row := LeakLineHtml(filePath, line, ruleId, shown);
      AppendAssoc(head, LeakRows(Html, fs[..i]), row);
      html := html + row;
    }
    assert fs[..|fs|] == fs;
  }

  /** The gitleaks formatters fall back to the "No secrets found" text exactly when the
      input is empty or not a list. */
  lemma GitleaksFallbackIff(style: Style, data: Json)
    requires GitleaksShaped(data)
    ensures Gitleaks(style, data) == NoSecrets(style) <==> !Truthy(data) || !data.JArray?
  {
    if Truthy(data) && data.JArray? {
      LeakTableNotFallback(style, LeakRows(style, data.items));
    }
  }

  lemma LeakTableNotFallback(style: Style, rows: string)
    ensures LeakHead(style) + rows + LeakFoot(style) != NoSecrets(style)
  {
    match style
    case Markdown => MarkdownLeakTableNotFallback(rows);
    case Html => HtmlLeakTableNotFallback(rows);
  }

  lemma MarkdownLeakTableNotFallback(rows: string)
    ensures LeakHead(Markdown) + rows != NoSecrets(Markdown)
  {
    var head := LeakHead(Markdown);
    assert head[0] == '\n';
    PrefixOfAppend(head, rows);
    PrefixMismatch(head + rows, head, NoSecrets(Markdown), 0);
  }

  lemma HtmlLeakTableNotFallback(rows: string)
    ensures LeakHead(Html) + rows + TableClose != NoSecrets(Html)
  {
    var head := LeakHead(Html);
    var out := head + rows + TableClose;
    assert TableOpen[1] == 't';
    PrefixOfAppend(TableOpen, head[|TableOpen|..]);
    assert head == TableOpen + head[|TableOpen|..];
    AppendAssoc(head, rows, TableClose);
    PrefixOfAppend(head, rows + TableClose);
    PrefixTransitive(TableOpen, head, out);
    PrefixMismatch(out, TableOpen, NoSecrets(Html), 1);
  }

  lemma MarkdownLeakLineIsOneLine(file: string, line: string, rule: string, shown: string)
    requires NoBreak(file) && NoBreak(line) && NoBreak(rule) && NoBreak(shown)
    ensures Lines(LeakLineMd(file, line, rule, shown)) == 1
  {
    LinesOfNewline("| `" + file + "` | " + line + " | " + rule + " | `" + shown + "` |");
  }

  lemma HtmlLeakLineIsOneLine(file: string, line: string, rule: string, shown: string)
    requires NoBreak(file) && NoBreak(line) && NoBreak(rule) && NoBreak(shown)
    ensures Lines(LeakLineHtml(file, line, rule, shown)) == 1
  {
    LinesOfNewline("<tr><td><code>" + file + "</code></td>" + "<td>" + line + "</td><td>" + rule + "</td>"
                   + "<td><code>" + shown + "</code></td></tr>");
  }

  lemma ClipKeepsBreaks(m: string)
    requires NoBreak(m)
    ensures NoBreak(Clip(m))
  {
    if |m| > 50 {
      assert forall k :: 0 <= k < 50 ==> Clip(m)[k] == m[k];
    }
  }

  /** A finding whose values each fit on one line renders as exactly one line. */
  lemma LeakRowIsOneLine(style: Style, f: Json)
    requires LeakShaped(f) && Plain(f)
    ensures Lines(LeakRow(style, f)) == 1
  {
    PlainField(f, "File", "Unknown");
    PlainField(f, "StartLine", "N/A");
    PlainField(f, "RuleID", "Unknown");
    PlainField(f, "Match", "");
    ClipKeepsBreaks(StringField(f, "Match", ""));
    var shown := Clip(StringField(f, "Match", ""));
    match style
    case Markdown =>
      MarkdownLeakLineIsOneLine(Field(f, "File", "Unknown"), Field(f, "StartLine", "N/A"), Field(f, "RuleID", "Unknown"), shown);
    case Html =>
      HtmlLeakLineIsOneLine(Field(f, "File", "Unknown"), Field(f, "StartLine", "N/A"), Field(f, "RuleID", "Unknown"), shown);
  }

  /** Each finding contributes exactly one table row. */
  lemma {:induction false} LeakRowsOnePerFinding(style: Style, fs: seq<Json>)
    requires LeaksShaped(fs)
    requires forall i :: 0 <= i < |fs| ==> Plain(fs[i])
    ensures Lines(LeakRows(style, fs)) == |fs|
  {
    if |fs| > 0 {
      var init := fs[..|fs| - 1];
      assert LeaksShaped(init);
      LeakRowsOnePerFinding(style, init);
      LeakRowIsOneLine(style, fs[|fs| - 1]);
      LinesAppend(LeakRows(style, init), LeakRow(style, fs[|fs| - 1]));
    }
  }

  /** A numeric `StartLine` is shown in decimal. */
  lemma StartLineShownInDecimal(f: Json, n: int)
    requires f.JObject? && Lookup(f.members, "StartLine") == Some(JNumber(n))
    ensures Field(f, "StartLine", "N/A") == IntToString(n)
    ensures ParseInt(Field(f, "StartLine", "N/A")) == Some(n)
  {
    IntToStringRoundTrip(n);
  }

  // ---------------------------------------------------------------- checkov

  function NoIssues(style: Style): string {
    match style
    case Markdown => "_No issues found_\n"
    case Html => "<p><em>No issues found</em></p>"
  }

  /** At most this many failed checks are listed per check type. */
  const RowCap: nat := 15

  /** `item.get('results', {})`. */
  function CheckResults(item: Json): Json
    requires item.JObject?
  {
    Get(item, "results", JObject([]))
  }

  function PassedChecks(item: Json): Json
    requires item.JObject? && CheckResults(item).JObject?
  {
    Get(CheckResults(item), "passed_checks", JArray([]))
  }

  function FailedChecks(item: Json): Json
    requires item.JObject? && CheckResults(item).JObject?
  {
    Get(CheckResults(item), "failed_checks", JArray([]))
  }

  /** An item the checkov formatters accept without raising: a dictionary with a string
      check type, a results dictionary, passed checks that have a length and failed
      checks that are a list of dictionaries. */
  predicate CheckovItemShaped(item: Json) {
    && item.JObject?
    && StringOrAbsent(item, "check_type")
    && CheckResults(item).JObject?
    && (Truthy(PassedChecks(item)) ==> Sized(PassedChecks(item)))
    && (Truthy(FailedChecks(item)) ==> ObjectList(FailedChecks(item)))
  }

  predicate CheckovItemsShaped(items: seq<Json>) {
    forall i :: 0 <= i < |items| ==> CheckovItemShaped(items[i])
  }

  predicate CheckovShaped(data: Json) {
    Truthy(data) && data.JArray? ==> CheckovItemsShaped(data.items)
  }

  predicate Objects(cs: seq<Json>) {
    forall i :: 0 <= i < |cs| ==> cs[i].JObject?
  }

  /** `failed_checks[:15]`. */
  function Listed(cs: seq<Json>): (r: seq<Json>)
    ensures |r| == if |cs| <= RowCap then |cs| else RowCap
    ensures r <= cs
  {
    if |cs| <= RowCap then cs else cs[..RowCap]
  }

  function CheckLineMd(checkId: string, name: string, file: string): string {
    "| " + checkId + " | " + name + " | `" + file + "` |" + "\n"
  }

  function CheckLineHtml(checkId: string, name: string, file: string): string {
    "<tr><td><code>" + checkId + "</code></td><td>" + name + "</td>" + "<td><code>" + file + "</code></td></tr>" + "\n"
  }

  /** One table row per listed failed check. */
  function CheckRow(style: Style, c: Json): string
    requires c.JObject?
  {
    var checkId := Field(c, "check_id", "N/A");
    var name := Field(c, "check_name", "Unknown");
    var file := Field(c, "file_path", "Unknown");
    match style
    case Markdown => CheckLineMd(checkId, name, file)
    case Html => CheckLineHtml(checkId, name, file)
  }

  function CheckRows(style: Style, cs: seq<Json>): string
    requires Objects(cs)
  {
    if |cs| == 0 then "" else CheckRows(style, cs[..|cs| - 1]) + CheckRow(style, cs[|cs| - 1])
  }

  lemma CheckRowsStep(style: Style, cs: seq<Json>, i: nat)
    requires i < |cs| && Objects(cs)
    ensures Objects(cs[..i]) && Objects(cs[..i + 1])
    ensures CheckRows(style, cs[..i + 1]) == CheckRows(style, cs[..i]) + CheckRow(style, cs[i])
  {
    assert cs[..i + 1][..i] == cs[..i];
  }

  /** The note on failed checks beyond the cap: present iff there are more than 15. */
  function More(style: Style, n: nat): (r: string)
    ensures r != "" <==> n > RowCap
  {
    if n <= RowCap then ""
    else
      match style
      case Markdown => "\n_...and " + NatToString(n - RowCap) + " more_\n"
      case Html => "<p><em>...and " + NatToString(n - RowCap) + " more</em></p>\n"
  }

  function Heading(style: Style, checkType: string): string {
    match style
    case Markdown => "\n#### " + checkType + "\n\n"
    case Html => "<h4>" + checkType + "</h4>\n"
  }

  function PassedLine(style: Style, n: nat): string {
    match style
    case Markdown => "✅ **Passed**: " + NatToString(n) + " checks\n\n"
    case Html => "<p>✅ <strong>Passed</strong>: " + NatToString(n) + " checks</p>\n"
  }

  function FailedLine(style: Style, n: nat): string {
    match style
    case Markdown => "❌ **Failed**: " + NatToString(n) + " checks\n\n"
    case Html => "<p>❌ <strong>Failed</strong>: " + NatToString(n) + " checks</p>\n"
  }

  function CheckHead(style: Style): string {
    match style
    case Markdown => "| Check ID | Name | File |\n" + "|----------|------|------|\n"
    case Html => TableOpen + "<thead><tr><th>Check ID</th><th>Name</th><th>File</th></tr></thead>\n" + "<tbody>\n"
  }

  function CheckFoot(style: Style): string {
    match style
    case Markdown => ""
    case Html => TableClose
  }

  /** The failed-checks section: its count, a table of at most 15 rows, and the note
      on the rest. */
  function FailedSection(style: Style, cs: seq<Json>): string
    requires Objects(cs)
  {
    FailedLine(style, |cs|) + CheckHead(style) + CheckRows(style, Listed(cs)) + CheckFoot(style) + More(style, |cs|)
  }

  /** The upper-cased check type of an item. */
  function CheckType(item: Json): (t: string)
    requires item.JObject? && StringOrAbsent(item, "check_type")
    ensures var s := StringField(item, "check_type", "Unknown");
            |t| == |s| && forall k :: 0 <= k < |s| ==> t[k] == UpperChar(s[k])
    ensures forall k :: 0 <= k < |t| ==> !('a' <= t[k] <= 'z')
  {
    Upper(StringField(item, "check_type", "Unknown"))
  }

  /** The passed line: present iff there are passed checks. */
  function PassedPart(style: Style, item: Json): (r: string)
    requires CheckovItemShaped(item)
    ensures r != "" <==> Truthy(PassedChecks(item))
  {
    var passed := PassedChecks(item);
    if Truthy(passed) then PassedLine(style, Size(passed)) else ""
  }

  /** The failed section: present iff there are failed checks. */
  function FailedPart(style: Style, item: Json): (r: string)
    requires CheckovItemShaped(item)
    ensures r != "" <==> Truthy(FailedChecks(item))
  {
    var failed := FailedChecks(item);
    if Truthy(failed) then FailedSection(style, failed.items) else ""
  }

  /** One check type's section: its heading, then the passed line and the failed
      section, each only when it has checks to report. */
  function CheckovBlock(style: Style, item: Json): string
    requires CheckovItemShaped(item)
  {
    Heading(style, CheckType(item)) + PassedPart(style, item) + FailedPart(style, item)
  }

  function CheckovBlocks(style: Style, items: seq<Json>): string
    requires CheckovItemsShaped(items)
  {
    if |items| == 0 then "" else CheckovBlocks(style, items[..|items| - 1]) + CheckovBlock(style, items[|items| - 1])
  }

  lemma CheckovBlocksStep(style: Style, items: seq<Json>, i: nat)
    requires i < |items| && CheckovItemsShaped(items)
    ensures CheckovItemsShaped(items[..i]) && CheckovItemsShaped(items[..i + 1])
    ensures CheckovBlocks(style, items[..i + 1]) == CheckovBlocks(style, items[..i]) + CheckovBlock(style, items[i])
  {
    assert items[..i + 1][..i] == items[..i];
  }

  /** What `format_checkov_results_markdown` and `format_checkov_results_html` return. */
  function Checkov(style: Style, data: Json): string
    requires CheckovShaped(data)
  {
    if !Truthy(data) || !data.JArray? then NoIssues(style) else CheckovBlocks(style, data.items)
  }

  /** `format_checkov_results_markdown`. */
  method FormatCheckovMarkdown(data: Json) returns (md: string)
    requires CheckovShaped(data)
    ensures md == Checkov(Markdown, data)
  {
    if !Truthy(data) || !data.JArray? {
      return "_No issues found_\n";
    }
    var items := data.items;
    md := "";
    for i := 0 to |items|
      invariant md == CheckovBlocks(Markdown, items[..i])
    {
      CheckovBlocksStep(Markdown, items, i);
      var block := CheckovItemMarkdown(items[i]);
      md := md + block;
    }
    assert items[..|items|] == items;
  }

  /** One pass of the loop over items in `format_checkov_results_markdown`. */
  method CheckovItemMarkdown(item: Json) returns (block: string)
    requires CheckovItemShaped(item)
    ensures block == CheckovBlock(Markdown, item)
  {
    var checkType := StringField(item, "check_type", "Unknown");
    var passed := PassedChecks(item);
    var failed := FailedChecks(item);
    block := "\n#### " + Upper(checkType) + "\n\n";
    assert block == Heading(Markdown, CheckType(item));
    if Truthy(passed) {
      block := block + ("✅ **Passed**: " + NatToString(Size(passed)) + " checks\n\n");
      assert block == Heading(Markdown, CheckType(item)) + PassedLine(Markdown, Size(passed));
    }
    assert block == Heading(Markdown, CheckType(item)) + PassedPart(Markdown, item);
    if Truthy(failed) {
      var section := FailedSectionMarkdown(failed.items);
      block := block + section;
    }
  }

  /** The rows of the failed-checks table, appended to `head`. */
  method CheckTableMarkdown(head: string, listed: seq<Json>) returns (section: string)
    requires Objects(listed)
    ensures section == head + CheckRows(Markdown, listed)
  {
    section := head;
    for j := 0 to |listed|
      invariant section == head + CheckRows(Markdown, listed[..j])
    {
      CheckRowsStep(Markdown, listed, j);
      var check := listed[j];
      var checkId := Field(check, "check_id", "N/A");
      var name := Field(check, "check_name", "Unknown");
      var filePath := Field(check, "file_path", "Unknown");
      var row := CheckLineMd(checkId, name, filePath);
      AppendAssoc(head, CheckRows(Markdown, listed[..j]), row);
      section := section + row;
    }
    assert listed[..|listed|] == listed;
  }

  /** The failed-checks branch of `format_checkov_results_markdown`. */
  method FailedSectionMarkdown(cs: seq<Json>) returns (section: string)
    requires Objects(cs)
    ensures section == FailedSection(Markdown, cs)
  {
    section := "❌ **Failed**: " + NatToString(|cs|) + " checks\n\n";
    section := section + "| Check ID | Name | File |\n";
    section := section + "|----------|------|------|\n";
    assert section == FailedLine(Markdown, |cs|) + CheckHead(Markdown);
    section := CheckTableMarkdown(section, Listed(cs));
    assert section == FailedLine(Markdown, |cs|) + CheckHead(Markdown) + CheckRows(Markdown, Listed(cs)) + CheckFoot(Markdown);
    if |cs| > RowCap {
      section := section + ("\n_...and " + NatToString(|cs| - RowCap) + " more_\n");
    }
  }

  /** `format_checkov_results_html`. */
  method FormatCheckovHtml(data: Json) returns (html: string)
    requires CheckovShaped(data)
    ensures html == Checkov(Html, data)
  {
    if !Truthy(data) || !data.JArray? {
      return "<p><em>No issues found</em></p>";
    }
    var items := data.items;
    html := "";
    for i := 0 to |items|
      invariant html == CheckovBlocks(Html, items[..i])
    {
      CheckovBlocksStep(Html, items, i);
      var block := CheckovItemHtml(items[i]);
      html := html + block;
    }
    assert items[..|items|] == items;
  }

  /** One pass of the loop over items in `format_checkov_results_html`. */
  method CheckovItemHtml(item: Json) returns (block: string)
    requires CheckovItemShaped(item)
    ensures block == CheckovBlock(Html, item)
  {
    var checkType := StringField(item, "check_type", "Unknown");
    var passed := PassedChecks(item);
    var failed := FailedChecks(item);
    block := "<h4>" + Upper(checkType) + "</h4>\n";
    assert block == Heading(Html, CheckType(item));
    if Truthy(passed) {
      block := block + ("<p>✅ <strong>Passed</strong>: " + NatToString(Size(passed)) + " checks</p>\n");
      assert block == Heading(Html, CheckType(item)) + PassedLine(Html, Size(passed));
    }
    assert block == Heading(Html, CheckType(item)) + PassedPart(Html, item);
    if Truthy(failed) {
      var section := FailedSectionHtml(failed.items);
      block := block + section;
    }
  }

  /** The rows of the failed-checks table, appended to `head`. */
  method CheckTableHtml(head: string, listed: seq<Json>) returns (section: string)
    requires Objects(listed)
    ensures section == head + CheckRows(Html, listed)
  {
    section := head;
    for j := 0 to |listed|
      invariant section == head + CheckRows(Html, listed[..j])
    {
      CheckRowsStep(Html, listed, j);
      var check := listed[j];
      var checkId := Field(check, "check_id", "N/A");
      var name := Field(check, "check_name", "Unknown");
      var filePath := Field(check, "file_path", "Unknown");
      var row := CheckLineHtml(checkId, name, filePath);
      AppendAssoc(head, CheckRows(Html, listed[..j]), row);
      section := section + row;
    }
    assert listed[..|listed|] == listed;
  }

  /** The failed-checks branch of `format_checkov_results_html`. */
  method FailedSectionHtml(cs: seq<Json>) returns (section: string)
    requires Objects(cs)
    ensures section == FailedSection(Html, cs)
  {
    section := "<p>❌ <strong>Failed</strong>: " + NatToString(|cs|) + " checks</p>\n";
    ghost var line := section;
    section := section + TableOpen;
    section := section + "<thead><tr><th>Check ID</th><th>Name</th><th>File</th></tr></thead>\n";
    section := section + "<tbody>\n";
    AppendAssoc(line, TableOpen, "<thead><tr><th>Check ID</th><th>Name</th><th>File</th></tr></thead>\n");
    AppendAssoc(line, TableOpen + "<thead><tr><th>Check ID</th><th>Name</th><th>File</th></tr></thead>\n", "<tbody>\n");
    assert section == FailedLine(Html, |cs|) + CheckHead(Html);
    section := CheckTableHtml(section, Listed(cs));
    section := section + TableClose;
    assert section == FailedLine(Html, |cs|) + CheckHead(Html) + CheckRows(Html, Listed(cs)) + CheckFoot(Html);
    if |cs| > RowCap {
      section := section + ("<p><em>...and " + NatToString(|cs| - RowCap) + " more</em></p>\n");
    }
  }

  // ---------------------------------------------------------------- checkov properties

  /** Every check type's section opens with its heading. */
  lemma CheckovBlockLead(style: Style, item: Json)
    requires CheckovItemShaped(item)
    ensures Lead(style) <= CheckovBlock(style, item)
  {
    var heading := Heading(style, CheckType(item));
    assert heading == Lead(style) + heading[|Lead(style)|..];
    PrefixOfAppend(Lead(style), heading[|Lead(style)|..]);
    PrefixOfAppend(heading, PassedPart(style, item));
    PrefixOfAppend(heading + PassedPart(style, item), FailedPart(style, item));
  }

  lemma {:induction false} CheckovBlocksLead(style: Style, items: seq<Json>)
    requires CheckovItemsShaped(items) && |items| > 0
    ensures Lead(style) <= CheckovBlocks(style, items)
  {
    var init := items[..|items| - 1];
    assert CheckovItemsShaped(init);
    var b := CheckovBlock(style, items[|items| - 1]);
    if |init| == 0 {
      CheckovBlockLead(style, items[|items| - 1]);
      assert CheckovBlocks(style, items) == "" + b;
    } else {
      CheckovBlocksLead(style, init);
      PrefixOfAppend(CheckovBlocks(style, init), b);
    }
  }

  /** The checkov formatters fall back to the "No issues found" text exactly when the
      input is empty or not a list. */
  lemma CheckovFallbackIff(style: Style, data: Json)
    requires CheckovShaped(data)
    ensures Checkov(style, data) == NoIssues(style) <==> !Truthy(data) || !data.JArray?
  {
    if Truthy(data) && data.JArray? {
      CheckovBlocksNotFallback(style, data.items);
    }
  }

  lemma CheckovBlocksNotFallback(style: Style, items: seq<Json>)
    requires CheckovItemsShaped(items) && |items| > 0
    ensures CheckovBlocks(style, items) != NoIssues(style)
  {
    CheckovBlocksLead(style, items);
    match style
    case Markdown => MarkdownNotFallback(CheckovBlocks(Markdown, items));
    case Html => HtmlNotFallback(CheckovBlocks(Html, items));
  }

  lemma MarkdownCheckLineIsOneLine(checkId: string, name: string, file: string)
    requires NoBreak(checkId) && NoBreak(name) && NoBreak(file)
    ensures Lines(CheckLineMd(checkId, name, file)) == 1
  {
    LinesOfNewline("| " + checkId + " | " + name + " | `" + file + "` |");
  }

  lemma HtmlCheckLineIsOneLine(checkId: string, name: string, file: string)
    requires NoBreak(checkId) && NoBreak(name) && NoBreak(file)
    ensures Lines(CheckLineHtml(checkId, name, file)) == 1
  {
    LinesOfNewline("<tr><td><code>" + checkId + "</code></td><td>" + name + "</td>" + "<td><code>" + file + "</code></td></tr>");
  }

  lemma CheckRowIsOneLine(style: Style, c: Json)
    requires c.JObject? && Plain(c)
    ensures Lines(CheckRow(style, c)) == 1
  {
    PlainField(c, "check_id", "N/A");
    PlainField(c, "check_name", "Unknown");
    PlainField(c, "file_path", "Unknown");
    match style
    case Markdown =>
      MarkdownCheckLineIsOneLine(Field(c, "check_id", "N/A"), Field(c, "check_name", "Unknown"), Field(c, "file_path", "Unknown"));
    case Html =>
      HtmlCheckLineIsOneLine(Field(c, "check_id", "N/A"), Field(c, "check_name", "Unknown"), Field(c, "file_path", "Unknown"));
  }

  /** Each listed check contributes exactly one table row. */
  lemma {:induction false} CheckRowsOnePerCheck(style: Style, cs: seq<Json>)
    requires Objects(cs)
    requires forall i :: 0 <= i < |cs| ==> Plain(cs[i])
    ensures Lines(CheckRows(style, cs)) == |cs|
  {
    if |cs| > 0 {
      var init := cs[..|cs| - 1];
      assert Objects(init);
      CheckRowsOnePerCheck(style, init);
      CheckRowIsOneLine(style, cs[|cs| - 1]);
      LinesAppend(CheckRows(style, init), CheckRow(style, cs[|cs| - 1]));
    }
  }

  /** The failed table lists the first 15 checks, one row each. */
  lemma ListedRowsCapped(style: Style, cs: seq<Json>)
    requires Objects(cs)
    requires forall i :: 0 <= i < |cs| ==> Plain(cs[i])
    ensures Lines(CheckRows(style, Listed(cs))) == if |cs| <= RowCap then |cs| else RowCap
  {
    var listed := Listed(cs);
    forall i | 0 <= i < |listed| ensures listed[i].JObject? && Plain(listed[i]) {
      assert listed[i] == cs[i];
    }
    CheckRowsOnePerCheck(style, listed);
  }

  /** The note beyond the cap names the number of checks left out, in decimal: with
      the 15 listed rows it accounts for every failed check. */
  lemma MoreNamesRemainder(style: Style, n: nat)
    requires n > RowCap
    ensures Contains(More(style, n), NatToString(n - RowCap))
    ensures DigitsValue(NatToString(n - RowCap)) + RowCap == n
  {
    var digits := NatToString(n - RowCap);
    NatToStringValue(n - RowCap);
    match style
    case Markdown =>
      ContainsSuffix("\n_...and ", digits);
      ContainsGrow("\n_...and " + digits, " more_\n", digits);
    case Html =>
      ContainsSuffix("<p><em>...and ", digits);
      ContainsGrow("<p><em>...and " + digits, " more</em></p>\n", digits);
  }
}
