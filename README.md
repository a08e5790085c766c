# Cerberus security-scan orchestration, modelled in Dafny

Cerberus runs a set of external security tools over a source repository. It then
collects their results and renders reports. This project models the decision logic of
that pipeline:

- the **artifact detector**, which classifies the paths of a repository walk into seven
  lists, builds maven and gradle projects, and searches again for jars and wars after a
  successful build;
- the **tool scanners** (helm, lint, container, SAST, IaC, secrets, dependency and the
  SBOM consistency scanner): each maps one process outcome to a result record with a
  status, and each `scan` fans its tools out over its targets;
- the **version-conflict detector**, which groups SBOM packages by `(name, type)` and
  reports every group with more than one version, sorted, with advice for its ecosystem;
- the **report generator's** summary counters, the summary-table cells read from them,
  and the choice of report writer;
- the **report formatter's** six renderers (trivy, gitleaks and checkov, in markdown and
  in HTML).

A process call is not executed: a `Runner` (an invocation to its outcome) is a parameter.
So is JSON parsing, a `Parser` from text to an optional decoded value. The outcome is one
of the following:

- `Exited(code, stdout, stderr)`;
- `TimedOut`;
- `NotFound` (the executable is missing);
- `Raised(msg)` (any other exception).

A repository walk is a given sequence of path entries in traversal order.

Code that updates state keeps its form:

- `ArtifactDetector` is a class whose seven list fields its methods append to;
- every `scan` loop, `_identify_images`, the spotbugs loop, the two loops of
  `_find_conflicts`, `_generate_summary` and every formatter loop are methods with loop
  invariants.

Each method is proved equal to a function of its inputs, and the properties are lemmas
about those functions.

Files: `base.dfy` (shared datatypes and the common outcome decision), `text.dfy` (the
parts of Python's `str` the code relies on), and one file per source module.

## Model

| member | source | states |
|---|---|---|
| Base.Truthy | utils/report_formatter.py:14-27 | Python truthiness of a decoded value: `None`, `False`, `0`, `""`, `[]` and `{}` are false, everything else true (also lines 91, 148-151 and scanners/secrets_scanner.py:65) |
| Base.KeySetMembers | utils/report_generator.py:428-429 | a key is among a dictionary's keys iff some entry carries it |
| Base.KeyCount | utils/report_generator.py:428-429 | `len(d)` counts distinct keys: at most the number of entries, and 0 iff there are none |
| Base.KeyCountDistinct | utils/report_generator.py:428-429 | without a repeated key, `len(d)` is the number of entries |
| Base.RaisedStatus | scanners/helm_scanner.py:90-95 | an exception maps to `timeout` iff it is a timeout, to `not_installed` iff the executable is missing, to `error` otherwise |
| Base.ParsedRecord | scanners/helm_scanner.py:79-86 | the record names its target and is `completed`; it carries the parsed output iff the output parses, else `findings: []` |
| Base.ParsedOrEmpty | scanners/sast_scanner.py:68-71 | the tool's JSON is handed back as it is iff it parses; otherwise `{'findings': [], 'status': 'completed'}` |
| Base.ToolRecord | scanners/helm_scanner.py:71-95 | per-target decision: `completed` iff the exit code is accepted (then parsed output or `findings: []`), `failed` with stderr iff it is not, an exception becomes its status and message; the target is always recorded |
| Base.ToolReport | scanners/sast_scanner.py:60-80 | the same decision for a whole-repository run, whose parsed JSON is returned unchanged |
| Text.OccursImpliesContains | scanners/consistency_scanner.py:115 | every occurrence of a substring is found by `in` |
| Text.ContainsHasOccurrence | scanners/consistency_scanner.py:115 | `in` answers yes only when there is an occurrence |
| Text.StripLeft | scanners/container_scanner.py:76 | `lstrip` drops exactly the leading whitespace |
| Text.StripRight | scanners/container_scanner.py:76 | `rstrip` drops exactly the trailing whitespace |
| Text.SplitOn | scanners/container_scanner.py:76 | `split('\n')` gives at least one piece, none holding the separator |
| Text.JoinSplit | scanners/container_scanner.py:76 | joining the pieces of `split` with the separator gives the text back |
| Text.Words | utils/artifact_detector.py:149 | `cmd.split()` gives the non-empty whitespace-free words |
| Text.WordPrefixBeforeSpace | utils/artifact_detector.py:149 | a word ends at the first whitespace character, whatever follows |
| Text.WordsOfEmpty | utils/artifact_detector.py:149 | `''.split()` is `[]` |
| Text.WordsOfWord | utils/artifact_detector.py:149 | a non-empty text without whitespace splits into itself alone |
| Text.WordsSplitAtSpace | utils/artifact_detector.py:149 | a whitespace character splits a text into the words before it followed by the words after it; with the two rows above this fixes `split()` on every text |
| Text.Take | utils/report_formatter.py:39 | `s[:n]` is a prefix of length `min(len(s), n)` |
| Text.Lower | utils/report_formatter.py:78 | `lower()` maps each character and keeps the length |
| Text.LowerIsIdempotent | utils/report_formatter.py:78 | lower-casing leaves no upper-case letter and is idempotent |
| Text.Upper | utils/report_formatter.py:143 | `upper()` maps each character and keeps the length |
| Text.NatToString | utils/report_formatter.py:149 | `str(n)` is a non-empty digit string without a leading zero |
| Text.IntToStringRoundTrip | scanners/lint_scanner.py:66 | `int(str(n)) == n` for every integer |
| ConsistencyScanner.BelowTransitive | scanners/consistency_scanner.py:96 | Python's string `<` is transitive |
| ConsistencyScanner.BelowTotal | scanners/consistency_scanner.py:96 | of two different strings one is below the other |
| ConsistencyScanner.BelowIsStrictOrder | scanners/consistency_scanner.py:96 | string `<` is irreflexive and asymmetric |
| ConsistencyScanner.LeastExists | scanners/consistency_scanner.py:96 | a non-empty set of versions has a least element |
| ConsistencyScanner.SortedVersions | scanners/consistency_scanner.py:96 | `sorted(list(versions))` is strictly ascending, has exactly the set's members and its size |
| ConsistencyScanner.AscendingEnumerationUnique | scanners/consistency_scanner.py:96 | two strictly ascending lists with the same members are equal, so the sorted list is determined by the set |
| ConsistencyScanner.LastIsGreatest | scanners/consistency_scanner.py:98 | `sorted_versions[-1]` is above every other version |
| ConsistencyScanner.EcosystemOf | scanners/consistency_scanner.py:115-130 | maven/java is checked first, then python/pip, then npm/node, else generic |
| ConsistencyScanner.MavenAdvice | scanners/consistency_scanner.py:116-119 | the maven advice names the package and the latest version |
| ConsistencyScanner.PythonAdvice | scanners/consistency_scanner.py:121-124 | the python advice names the package and the latest version |
| ConsistencyScanner.NpmAdvice | scanners/consistency_scanner.py:126-129 | the npm advice names the package |
| ConsistencyScanner.GenericAdvice | scanners/consistency_scanner.py:131 | the generic advice names the latest version and the package |
| ConsistencyScanner.Remediation | scanners/consistency_scanner.py:111-131 | `_generate_remediation` returns the maven advice when the type contains `maven` or `java`; otherwise the python advice for `python`/`pip`; otherwise the npm advice for `npm`/`node`; otherwise the generic advice. Every advice names the package, and all but the npm one name the latest version |
| ConsistencyScanner.ConflictOf | scanners/consistency_scanner.py:100-107 | a conflict's `package` and `type` are its group key and its severity is `MEDIUM` |
| ConsistencyScanner.ConflictVersions | scanners/consistency_scanner.py:96-106 | a conflict's versions are the group's versions, strictly ascending, and its remediation is about the last one |
| ConsistencyScanner.FindConflicts | scanners/consistency_scanner.py:75-109 | `_find_conflicts` returns `Conflicts` of the artifacts (none when `artifacts` is absent) |
| ConsistencyScanner.FillRegistry | scanners/consistency_scanner.py:79-90 | the registry loop leaves one entry per key, in first-occurrence order, mapped to the key's set of versions |
| ConsistencyScanner.RegistryAdvance | scanners/consistency_scanner.py:82-90 | one registry iteration turns the registry of a prefix into the registry of the next prefix |
| ConsistencyScanner.KeysOfMembers | scanners/consistency_scanner.py:87-89 | a key is in the registry iff some package has it |
| ConsistencyScanner.KeysOfDistinct | scanners/consistency_scanner.py:80-90 | the registry holds each key once |
| ConsistencyScanner.VersionsOfMembers | scanners/consistency_scanner.py:82-90 | a version is in a key's set iff some package of that key has it |
| ConsistencyScanner.KeysOfFirstOccurrenceOrder | scanners/consistency_scanner.py:80-93 | registry keys are ordered by first occurrence in the input |
| ConsistencyScanner.ConflictKeysInOrder | scanners/consistency_scanner.py:92-107 | the conflicts' keys are the multi-version keys, in registry order |
| ConsistencyScanner.ConflictsOverMembers | scanners/consistency_scanner.py:93-107 | every conflict is built from a key with more than one version, from that key's versions |
| ConsistencyScanner.MultiVersionKeysMembers | scanners/consistency_scanner.py:93-94 | a key is selected iff it is a registry key with more than one version |
| ConsistencyScanner.ConflictIffSeveralVersions | scanners/consistency_scanner.py:82-94 | a key gets a conflict iff its distinct versions number more than one; repeated equal versions never conflict |
| ConsistencyScanner.ConflictsAreWellFormed | scanners/consistency_scanner.py:80-107 | no two conflicts share a key; each is `MEDIUM` with its group's versions strictly ascending |
| ConsistencyScanner.NoArtifactsNoConflicts | scanners/consistency_scanner.py:79 | no packages give no conflicts |
| ConsistencyScanner.SyftInvocation | scanners/consistency_scanner.py:40-47 | `syft` is run on `dir:` plus the repository path with a 600-second limit |
| ConsistencyScanner.Scan | scanners/consistency_scanner.py:22-70 | `{}` iff disabled; `not_installed` without syft; `failed` on a non-zero exit or unparsable output; `timeout`; `error` for other exceptions; otherwise the conflicts, `completed`, tool `syft` |
| ArtifactDetection.IsDockerfile | utils/artifact_detector.py:51-52 | `rglob('Dockerfile*')` and `is_file()`: a file whose name starts with `Dockerfile` |
| ArtifactDetection.IsChartFile | utils/artifact_detector.py:57-58 | a file named `Chart.yaml` |
| ArtifactDetection.IsPom | utils/artifact_detector.py:66-67 | a file named `pom.xml` |
| ArtifactDetection.IsGradleFile | utils/artifact_detector.py:75-76 | a file whose name starts with `build.gradle` |
| ArtifactDetection.IsBuiltArtifact | utils/artifact_detector.py:85-91 | a name ending in the extension, and either a file with a `target` segment or any entry with a `build` segment |
| ArtifactDetection.IsManifest | utils/artifact_detector.py:99-100 | a file named exactly the pattern |
| ArtifactDetection.ParentParts | utils/artifact_detector.py:60 | `path.parent` is the path without its last segment |
| ArtifactDetection.CollectMembers | utils/artifact_detector.py:51-53 | a finder's list holds exactly the renderings of the matching entries |
| ArtifactDetection.CollectEmpty | utils/artifact_detector.py:51-53 | a finder's list is empty iff no entry matches |
| ArtifactDetection.ChartsAreParentDirectories | utils/artifact_detector.py:57-61 | each chart entry is the parent directory of a `Chart.yaml`; the list is empty iff there is none |
| ArtifactDetection.CollectKind | utils/artifact_detector.py:66-81 | every entry a build-file walk adds carries that walk's type |
| ArtifactDetection.MavenBeforeGradle | utils/artifact_detector.py:66-81 | all maven entries precede all gradle entries |
| ArtifactDetection.BuildFileDirIsParent | utils/artifact_detector.py:68-72 | a build file's `path` is its `dir` followed by its name |
| ArtifactDetection.JarMembers | utils/artifact_detector.py:85-87 | a `.jar` is listed iff (it is a file with a `target` segment) or it has a `build` segment |
| ArtifactDetection.BuildDirectoryIsCollected | utils/artifact_detector.py:86 | a directory named `*.jar` under `build` is listed although it is not a file |
| ArtifactDetection.AddNewMembers | utils/artifact_detector.py:102-103 | adding unseen paths keeps the old list as a prefix and holds exactly the old and new paths |
| ArtifactDetection.AddNewDistinct | utils/artifact_detector.py:102-103 | the manifest list stays free of duplicates |
| ArtifactDetection.AddNewKnown | utils/artifact_detector.py:102-103 | adding only paths already listed changes nothing |
| ArtifactDetection.ManifestsIdempotent | utils/artifact_detector.py:93-103 | a second manifest search over the same walk changes nothing |
| ArtifactDetection.BuildArgv | utils/artifact_detector.py:144 | maven runs the configured command or `mvn clean package -DskipTests`; gradle runs `./gradlew` with a wrapper, else `gradle`, `clean build -x test` |
| ArtifactDetection.BuildPlan | utils/artifact_detector.py:121-131 | one build call per build file, in order |
| ArtifactDetection.AllBuiltStep | utils/artifact_detector.py:129-131 | `success &= ok` is true iff every build so far succeeded |
| ArtifactDetection.ArtifactDetector.constructor | utils/artifact_detector.py:14-32 | a fresh detector holds seven empty lists |
| ArtifactDetection.ArtifactDetector.Detect | utils/artifact_detector.py:34-47 | dockerfiles, charts, build files, jars and wars are extended by this walk's matches (a second call lists them again); manifests gain only paths not yet listed; docker images are untouched |
| ArtifactDetection.ArtifactDetector.FindDockerfiles | utils/artifact_detector.py:49-53 | appends the path of every `Dockerfile*` file, in walk order |
| ArtifactDetection.ArtifactDetector.FindHelmCharts | utils/artifact_detector.py:55-61 | appends the parent directory of every `Chart.yaml` file |
| ArtifactDetection.ArtifactDetector.FindBuildFiles | utils/artifact_detector.py:63-81 | appends every `pom.xml` entry, then every `build.gradle*` entry |
| ArtifactDetection.ArtifactDetector.FindBuildFilesOf | utils/artifact_detector.py:66-72 | one build-file walk appends the rendering of every matching entry |
| ArtifactDetection.ArtifactDetector.FindJavaArtifacts | utils/artifact_detector.py:83-91 | appends the matching jars and wars, precedence quirk included |
| ArtifactDetection.ArtifactDetector.FindJars | utils/artifact_detector.py:85-87 | appends the matching jars |
| ArtifactDetection.ArtifactDetector.FindWars | utils/artifact_detector.py:89-91 | appends the matching wars |
| ArtifactDetection.ArtifactDetector.FindKubernetesManifests | utils/artifact_detector.py:93-103 | appends each manifest path not yet listed, pattern by pattern, keeping the list duplicate-free |
| ArtifactDetection.ArtifactDetector.BuildArtifacts | utils/artifact_detector.py:105-140 | disabled or no build files: false, nothing attempted; otherwise every build is attempted in order, the result is true iff all succeeded, and jars and wars are searched again only then |
| ArtifactDetection.ArtifactDetector.BuildOne | utils/artifact_detector.py:121-131 | dispatches on the build file's type |
| ArtifactDetection.ArtifactDetector.BuildMaven | utils/artifact_detector.py:142-167 | success iff the maven call exits 0; timeout and exceptions fail |
| ArtifactDetection.ArtifactDetector.BuildGradle | utils/artifact_detector.py:169-199 | success iff the gradle call exits 0; timeout and exceptions fail |
| HelmScanner.KubescapeCall | scanners/helm_scanner.py:63-76 | `kubescape` is run on the chart with a 300-second limit and no input |
| HelmScanner.TemplateCall | scanners/helm_scanner.py:101-107 | `helm template` is run on the chart with a 60-second limit |
| HelmScanner.AuditCall | scanners/helm_scanner.py:113-120 | `kubeaudit` reads the rendered chart on standard input, with a 60-second limit |
| HelmScanner.LintCall | scanners/helm_scanner.py:138-145 | `helm lint` is run on the chart with a 60-second limit |
| HelmScanner.TrivyCall | scanners/helm_scanner.py:164-176 | `trivy` is run on the chart with a 300-second limit |
| HelmScanner.Kubescan | scanners/helm_scanner.py:59-95 | exit 0 or 1 is `completed` (parsed or `findings: []`), another code `failed` with stderr; exceptions mapped; the chart is recorded |
| HelmScanner.Kubeaudit | scanners/helm_scanner.py:97-133 | a failed template is `failed` with no audit; otherwise `completed` with the audit's stdout whatever its exit code |
| HelmScanner.HelmLint | scanners/helm_scanner.py:135-159 | both streams are always kept; `completed` iff exit 0, `issues_found` iff not |
| HelmScanner.TrivyHelm | scanners/helm_scanner.py:161-195 | only exit 0 is `completed`; another code is `failed` with stderr |
| HelmScanner.ExitOneIsFindingsForKubescapeOnly | scanners/helm_scanner.py:78 | exit 1 is a finding for kubescape and a failure for trivy |
| HelmScanner.ExceptionsAreNeverCompleted | scanners/helm_scanner.py:154-159 | a raising lint call is never `completed` or `issues_found` |
| HelmScanner.RecordsPerChart | scanners/helm_scanner.py:44-55 | a tool's list has one record per chart, the i-th for the i-th chart |
| HelmScanner.ColumnPerChart | scanners/helm_scanner.py:44-55 | a configured tool has one record per chart in chart order; an unconfigured tool leaves its list empty |
| HelmScanner.Scan | scanners/helm_scanner.py:24-57 | the four lists (`helm-lint` fills `helm_lint`) are `ScanOf`, one column per tool |
| LintScanner.HadolintCall | scanners/lint_scanner.py:47-58 | `hadolint` is run on the Dockerfile with a 60-second limit |
| LintScanner.Hadolint | scanners/lint_scanner.py:44-83 | exit 0 `completed` even when empty; exit 1 `issues_found` unless the output is empty (then `error`); other codes `error` naming the code; exceptions mapped |
| LintScanner.CrashMessageNamesCode | scanners/lint_scanner.py:66 | the crash message gives the exit code back exactly |
| LintScanner.Scan | scanners/lint_scanner.py:23-42 | one record per Dockerfile, in order, iff hadolint is configured; else an empty list |
| ContainerScanner.ListImagesCall | scanners/container_scanner.py:68-73 | `docker images` is run with a 30-second limit |
| ContainerScanner.TrivyImageCall | scanners/container_scanner.py:87-100 | `trivy` is run on the image with a 600-second limit |
| ContainerScanner.GrypeCall | scanners/container_scanner.py:124-135 | `grype` is run on the image with a 600-second limit |
| ContainerScanner.UsableLinesMembers | scanners/container_scanner.py:76-78 | a line is kept iff it is listed, non-empty and free of `<none>` |
| ContainerScanner.ImagesAreListedOrFallback | scanners/container_scanner.py:64-82 | the images are never empty: `alpine:latest`, or usable lines of a listing that exited 0 |
| ContainerScanner.FailedListingFallsBack | scanners/container_scanner.py:75-82 | a failed, timed-out or raising listing gives `['alpine:latest']` |
| ContainerScanner.IdentifyImages | scanners/container_scanner.py:52-82 | the usable listed lines in order, else the fallback; the Dockerfiles are ignored |
| ContainerScanner.TrivyImage | scanners/container_scanner.py:84-119 | only exit 0 is `completed`; another code `failed` with stderr; exceptions mapped |
| ContainerScanner.GrypeImage | scanners/container_scanner.py:121-154 | only exit 0 is `completed`; another code `failed` with stderr; exceptions mapped |
| ContainerScanner.ScanImages | scanners/container_scanner.py:43-48 | one record per image per configured tool, in image order |
| ContainerScanner.Scan | scanners/container_scanner.py:24-50 | the images do not depend on the Dockerfiles; each configured tool scans each of them |
| SastScanner.SemgrepCall | scanners/sast_scanner.py:52-65 | `semgrep` is run on the repository with a 600-second limit |
| SastScanner.SpotbugsCall | scanners/sast_scanner.py:88-101 | `spotbugs` is run on the jar with a 300-second limit |
| SastScanner.Semgrep | scanners/sast_scanner.py:49-80 | exit 0 or 1 returns the parsed JSON (or `findings: []`), another code `failed`; exceptions mapped |
| SastScanner.SpotbugsEntry | scanners/sast_scanner.py:103-131 | a jar's entry is `completed` iff exit 0, `failed` with stderr otherwise; a timeout or exception is recorded against the jar |
| SastScanner.SpotbugsEntriesShape | scanners/sast_scanner.py:86-125 | the run aborts iff some jar finds no executable; otherwise one entry per jar, in jar order |
| SastScanner.SpotbugsMissingAborts | scanners/sast_scanner.py:124-125 | a missing executable discards the entries gathered so far |
| SastScanner.SpotbugsCompletedEvenIfAllFail | scanners/sast_scanner.py:133 | the report is `completed` even when every jar failed |
| SastScanner.SpotbugsAbortStays | scanners/sast_scanner.py:124-125 | once aborted, the whole run aborts |
| SastScanner.RunSpotbugs | scanners/sast_scanner.py:82-133 | the loop with its early return computes `SpotbugsReport` |
| SastScanner.Scan | scanners/sast_scanner.py:25-47 | semgrep iff configured; spotbugs iff configured and some jar exists; otherwise `None` |
| IacScanner.TrivyConfigCall | scanners/iac_scanner.py:51-63 | `trivy` is run on the repository with a 300-second limit |
| IacScanner.CheckovCall | scanners/iac_scanner.py:83-96 | `checkov` is run on the repository directory with a 300-second limit |
| IacScanner.TrivyConfig | scanners/iac_scanner.py:48-78 | only exit 0 returns trivy's JSON (or `findings: []`); another code `failed`; exceptions mapped |
| IacScanner.Checkov | scanners/iac_scanner.py:80-112 | exit 0 or 1 returns checkov's JSON (or `findings: []`); another code `failed`; exceptions mapped |
| IacScanner.Scan | scanners/iac_scanner.py:24-46 | each tool's entry is present iff it is configured |
| IacScanner.UnparsableIsClean | scanners/iac_scanner.py:99-103 | unparsable output after exit 1 counts as a clean run |
| SecretsScanner.GitleaksCall | scanners/secrets_scanner.py:45-59 | `gitleaks` is run on the repository with the configured time limit |
| SecretsScanner.Gitleaks | scanners/secrets_scanner.py:42-78 | after any exit the result comes from the report file: truthy findings, else `[]` (missing, unparsable or falsy); reading errors and exceptions become their status |
| SecretsScanner.ExitCodeIgnored | scanners/secrets_scanner.py:54-66 | two runs that both exit give the same result for the same report |
| SecretsScanner.GitleaksResultKinds | scanners/secrets_scanner.py:61-78 | the result is truthy findings, `[]`, or a `timeout`/`not_installed`/`error` dictionary, never an exception |
| SecretsScanner.Scan | scanners/secrets_scanner.py:23-40 | gitleaks runs iff configured, bounded by `scanner_timeout` (default 1800) |
| DependencyScanner.TrivyFsCall | scanners/dependency_scanner.py:48-61 | `trivy` is run on the repository with a 600-second limit |
| DependencyScanner.TrivyFs | scanners/dependency_scanner.py:45-76 | only exit 0 returns trivy's JSON (or `findings: []`); another code `failed` with stderr; exceptions mapped |
| DependencyScanner.Scan | scanners/dependency_scanner.py:27-43 | only trivy can run, iff configured; owasp-dependency-check never runs |
| DependencyScanner.TimeoutSettingUnused | scanners/dependency_scanner.py:25 | the configured timeout has no effect on the scan |
| ReportGeneration.SummaryShape | utils/report_generator.py:415-431 | the summary has exactly the result categories in order; four counters are 0 and `info` is a dictionary's number of distinct keys, else 0 |
| ReportGeneration.GenerateSummary | utils/report_generator.py:405-431 | `_generate_summary` computes `SummaryOf` |
| ReportGeneration.LookupFound | utils/report_generator.py:85 | `summary.get(category)` finds an entry iff the category is a key, and then it is that entry |
| ReportGeneration.Cell | utils/report_generator.py:85-91 | a category missing from the summary reads as 0 |
| ReportGeneration.CellOfGenerated | utils/report_generator.py:85-91 | read from a generated summary, severity cells are 0 and `info` is the category's key count |
| ReportGeneration.AbsentCategoryCells | utils/report_generator.py:85-91 | every cell of an absent category is 0 |
| ReportGeneration.AbsentCategoryRow | utils/report_generator.py:85-91 | an absent category renders as a row of zeros |
| ReportGeneration.TableRow | utils/report_generator.py:85-91 | one summary-table row: the bold heading and the five cells read from the summary, in decimal |
| ReportGeneration.FormatOf | utils/report_generator.py:38-43 | `json`, `html` and `markdown` each pick their writer; any other name writes nothing |
| ReportFormatting.LookupIsMember | utils/report_formatter.py:34 | a key found by `get` is paired with the found value somewhere in the dictionary |
| ReportFormatting.StringField | utils/report_formatter.py:39 | a missing string field reads as its default |
| ReportFormatting.FormatTrivyMarkdown | utils/report_formatter.py:12-45 | the markdown loop computes the trivy rendering |
| ReportFormatting.TrivyResultMarkdown | utils/report_formatter.py:23-43 | one pass of the results loop computes that result's section |
| ReportFormatting.VulnTableMarkdown | utils/report_formatter.py:33-41 | the vulnerability loop appends one row per vulnerability |
| ReportFormatting.VulnRowMarkdown | utils/report_formatter.py:34-41 | one markdown row |
| ReportFormatting.FormatTrivyHtml | utils/report_formatter.py:48-86 | the HTML loop computes the trivy rendering |
| ReportFormatting.TrivyResultHtml | utils/report_formatter.py:59-84 | one pass of the results loop computes that result's section |
| ReportFormatting.VulnTableHtml | utils/report_formatter.py:70-82 | the vulnerability loop appends one row per vulnerability |
| ReportFormatting.VulnRowHtml | utils/report_formatter.py:71-82 | one HTML row |
| ReportFormatting.TrivyFallbackIff | utils/report_formatter.py:14-19 | the output is the "No vulnerabilities found" text iff the input is falsy, not a dictionary, or its `Results` are falsy (also lines 50-55) |
| ReportFormatting.ResultBlocksLead | utils/report_formatter.py:29 | a non-empty rendering of the results starts with a result heading |
| ReportFormatting.ResultBlocksNotFallback | utils/report_formatter.py:21-45 | rendered results never equal the fallback text |
| ReportFormatting.VulnerabilityFreeResultIsSilent | utils/report_formatter.py:26-27 | a result contributes nothing iff it has no vulnerabilities |
| ReportFormatting.VulnRowIsOneLine | utils/report_formatter.py:41 | a vulnerability with single-line values renders as exactly one line |
| ReportFormatting.VulnRowsOnePerVulnerability | utils/report_formatter.py:33-41 | each vulnerability contributes exactly one table row |
| ReportFormatting.TitleCell | utils/report_formatter.py:39 | the markdown title is the title's first min(len, 60) characters, the whole title iff it fits |
| ReportFormatting.HtmlKeepsWholeTitle | utils/report_formatter.py:76 | the HTML row contains the whole title |
| ReportFormatting.SeverityClass | utils/report_formatter.py:78 | the class is `severity-` followed by the severity lower-cased character by character |
| ReportFormatting.MissingFieldsDefaultMarkdown | utils/report_formatter.py:34-39 | an empty vulnerability renders N/A, UNKNOWN, N/A, N/A, Not available, No description |
| ReportFormatting.MissingFieldsDefaultHtml | utils/report_formatter.py:71-78 | the same defaults in HTML, with class `severity-unknown` |
| ReportFormatting.FormatGitleaksMarkdown | utils/report_formatter.py:89-105 | the markdown loop computes the gitleaks rendering |
| ReportFormatting.LeakTableMarkdown | utils/report_formatter.py:97-103 | one row appended per finding |
| ReportFormatting.FormatGitleaksHtml | utils/report_formatter.py:108-130 | the HTML loop computes the gitleaks rendering |
| ReportFormatting.LeakTableHtml | utils/report_formatter.py:117-127 | one row appended per finding |
| ReportFormatting.GitleaksFallbackIff | utils/report_formatter.py:91-92 | the output is the "No secrets found" text iff the input is falsy or not a list (also lines 110-111) |
| ReportFormatting.LeakTableNotFallback | utils/report_formatter.py:94-105 | a rendered table never equals the fallback text |
| ReportFormatting.Clip | utils/report_formatter.py:101 | a match over 50 characters becomes its first 50 plus `...`; a shorter one is unchanged |
| ReportFormatting.LeakRowsOnePerFinding | utils/report_formatter.py:97-103 | each finding contributes exactly one row |
| ReportFormatting.StartLineShownInDecimal | utils/report_formatter.py:99 | an integer start line is shown in decimal and reads back as the same number |
| ReportFormatting.FormatCheckovHtml | utils/report_formatter.py:133-170 | the HTML loop computes the checkov rendering |
| ReportFormatting.CheckovItemHtml | utils/report_formatter.py:140-168 | one check type's section |
| ReportFormatting.CheckTableHtml | utils/report_formatter.py:157-163 | one row appended per listed failed check |
| ReportFormatting.FailedSectionHtml | utils/report_formatter.py:151-168 | count line, table of the first 15, and the note on the rest |
| ReportFormatting.FormatCheckovMarkdown | utils/report_formatter.py:173-205 | the markdown loop computes the checkov rendering |
| ReportFormatting.CheckovItemMarkdown | utils/report_formatter.py:180-203 | one check type's section |
| ReportFormatting.CheckTableMarkdown | utils/report_formatter.py:196-200 | one row appended per listed failed check |
| ReportFormatting.FailedSectionMarkdown | utils/report_formatter.py:191-203 | count line, table of the first 15, and the note on the rest |
| ReportFormatting.CheckovFallbackIff | utils/report_formatter.py:175-176 | the output is the "No issues found" text iff the input is falsy or not a list (also lines 135-136) |
| ReportFormatting.CheckovBlocksLead | utils/report_formatter.py:183 | a non-empty checkov rendering starts with a section heading (`\n` in markdown, `<h4>` in HTML) |
| ReportFormatting.CheckType | utils/report_formatter.py:183 | the heading's check type is `check_type.upper()`, character by character, with no lower-case letter left |
| ReportFormatting.PassedPart | utils/report_formatter.py:188-189 | the passed line appears iff there are passed checks |
| ReportFormatting.FailedPart | utils/report_formatter.py:191-203 | the failed section appears iff there are failed checks |
| ReportFormatting.Listed | utils/report_formatter.py:196 | `failed_checks[:15]` is a prefix of at most 15 checks |
| ReportFormatting.ListedRowsCapped | utils/report_formatter.py:196-200 | the table has min(n, 15) rows |
| ReportFormatting.CheckRowsOnePerCheck | utils/report_formatter.py:196-200 | each listed check contributes exactly one row |
| ReportFormatting.More | utils/report_formatter.py:202-203 | the "...and N more" note appears iff there are more than 15 failed checks |
| ReportFormatting.MoreNamesRemainder | utils/report_formatter.py:203 | the note names n − 15, which added to 15 gives n back |

## Left out

- Process execution, wall-clock timeouts and `shutil.which`: each call's outcome comes from the `Runner` parameter. Whether syft is on the path is a boolean input.
- JSON and XML parsing: `json.loads` is the `Parser` parameter. Syft's output is decoded by a `decode` parameter into an SBOM, a document whose shape makes `_find_conflicts` raise, or nothing parsable. Numbers are integers only. A fractional value would matter in two places: `0.0` is falsy for `Truthy`, which decides the gitleaks result and every formatter's fallback, and `Show`/`Repr` would print it in a cell such as `StartLine` or `InstalledVersion`.
- Filesystem walking and probes: `rglob` and `is_file` become a given sequence of path entries in traversal order. `rglob`'s own order is not modelled. Whether `gradlew` exists is a predicate parameter. The gitleaks report file is an input value.
- Path rendering: `str(path)` is the segments joined by `/`. Absolute prefixes and platform separators are not modelled. With the repository path `.`, Python renders the parent of a root-level file (such as `pom.xml`) as `.`; the model renders it as the empty string.
- The top-level CLI in `cerberus.py`, configuration loading, `utils/repo_manager.py`, and the report file writing and templating in `utils/report_generator.py` (lines 45-403) are not part of this model. Only the summary, its table cells and the writer dispatch are.
- Printing: the progress messages of `build_artifacts` and the build methods are not modelled.
- The temporary SBOM file of the consistency scanner is created and removed around the syft call. It plays no part in the result and is not modelled.
- Text.Lower, Text.Upper: only ASCII letters change case. Python's full Unicode case mapping is not modelled.
- ReportFormatting.Repr: values rendered through `repr` (numbers, booleans, `None`, lists, nested dictionaries) follow Python's layout. Python's choice of quote character and escaping inside strings is not modelled.
- ReportFormatting.Lookup: a repeated key in a decoded dictionary resolves to its last value, as `json.loads` does.
- ReportFormatting.FormatTrivyMarkdown, FormatTrivyHtml, FormatGitleaksMarkdown, FormatGitleaksHtml, FormatCheckovMarkdown, FormatCheckovHtml: each requires the shape the tools' output has: results that are dictionaries, and strings where a string method or slice is applied. On most other inputs the source raises `AttributeError` or `TypeError`, which its callers do not catch. Three inputs it renders without raising are excluded as well:
  - a gitleaks `Match` that is a list or dictionary of at most 50 items;
  - a trivy `Title` that is a list, since `[:60]` also slices lists;
  - failed checkov checks after the 15th that are not dictionaries, since only the first 15 are read.
- ReportFormatting.VulnRowsOnePerVulnerability, LeakRowsOnePerFinding, CheckRowsOnePerCheck: the one-row-per-item count assumes every rendered value is free of newlines. A value with a newline would span several lines.
- ReportFormatting.ListedRowsCapped: the count of min(n, 15) table lines likewise assumes newline-free check values. Without that assumption the table still lists exactly the first min(n, 15) checks (`Listed`), one `CheckRow` each.
- The formatter loops that Python writes inline are split into helper methods: a table loop, a row and a result section. Each is proved against the same function, so the rendering is unchanged.
- DependencyScanner: `nvd_api_key` is read but never used, and the OWASP dependency-check tool is never run. Both show in the model only as the default tool list.
- ReportGeneration.SummaryOf: the scan results are a sequence of `(category, value)` pairs. As in the source's dictionary, each category is expected once.
- ArtifactDetection.ArtifactDetector.Detect: in Python, `detect` returns the detector's own `artifacts` dictionary. Its lists are live: `build_artifacts` later appends the re-scanned jars and wars to them, and the SAST scanner sees those. Here `Detect` returns a copy (`Snapshot()`) that a later `BuildArtifacts` does not reach. The inventory the scanners see after a build is `Snapshot()` taken after `BuildArtifacts`.
- Runner: the runner is a function, so every invocation has one fixed outcome. When `detect` runs twice, each build file is listed twice, and both of its builds get the same result. An empty argv also gets whatever outcome the runner gives, even exit 0. In Python, a blank configured build command splits to `[]`, `subprocess.run([])` raises, and `_build_maven` returns False.
- Concurrency: the code has none.

