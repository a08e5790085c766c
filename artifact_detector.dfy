/** The artifact detector: walks the repository once per artifact kind, appending
    what it finds to seven lists held by the detector, and optionally builds the Java
    projects it found and looks for their jars and wars again. The walk itself is an
    input: the entries `rglob` yields, in the order it yields them. */
module ArtifactDetection {
  import opened Base
  import opened Text

  /** One path yielded by walking the repository: its segments (the repository root's
      own segments first) and whether it is a regular file. */
  datatype Entry = Entry(parts: seq<string>, isFile: bool)

  /** The last segment, which a glob pattern is matched against. */
  function Name(e: Entry): string {
    if |e.parts| == 0 then "" else e.parts[|e.parts| - 1]
  }

  /** `str(path)`: the segments joined by `/`. */
  function PathText(parts: seq<string>): string {
    Join(parts, "/")
  }

  /** `path.parent`, as segments. */
  function ParentParts(parts: seq<string>): (r: seq<string>)
    ensures |parts| > 0 ==> parts == r + [parts[|parts| - 1]]
  {
    if |parts| == 0 then [] else parts[..|parts| - 1]
  }

  function EntryPath(e: Entry): string {
    PathText(e.parts)
  }

  function EntryDir(e: Entry): string {
    PathText(ParentParts(e.parts))
  }

  datatype BuildKind = Maven | Gradle

  /** `{'type': ..., 'path': str(f), 'dir': str(f.parent)}`. */
  datatype BuildFile = BuildFile(kind: BuildKind, path: string, dir: string)

  function BuildFileOf(kind: BuildKind, e: Entry): BuildFile {
    BuildFile(kind, EntryPath(e), EntryDir(e))
  }

  // ---------------------------------------------------------------- patterns

  /** `rglob('Dockerfile*')` then `is_file()`. */
  predicate IsDockerfile(e: Entry) { e.isFile && "Dockerfile" <= Name(e) }

  /** `rglob('Chart.yaml')` then `is_file()`. */
  predicate IsChartFile(e: Entry) { e.isFile && Name(e) == "Chart.yaml" }

  /** `rglob('pom.xml')` then `is_file()`. */
  predicate IsPom(e: Entry) { e.isFile && Name(e) == "pom.xml" }

  /** `rglob('build.gradle*')` then `is_file()`. */
  predicate IsGradleFile(e: Entry) { e.isFile && "build.gradle" <= Name(e) }

  /** `rglob('*' + ext)` then `f.is_file() and 'target' in f.parts or 'build' in f.parts`,
      which Python groups as `(is_file and 'target') or 'build'`. */
  predicate IsBuiltArtifact(e: Entry, ext: string) {
    EndsWith(Name(e), ext) && ((e.isFile && "target" in e.parts) || "build" in e.parts)
  }

  /** The file names `_find_kubernetes_manifests` looks for, in the order it looks. */
  const ManifestPatterns: seq<string> :=
    ["deployment.yaml", "deployment.yml", "service.yaml", "service.yml", "ingress.yaml", "ingress.yml"]

  predicate IsJar(e: Entry) { IsBuiltArtifact(e, ".jar") }

  predicate IsWar(e: Entry) { IsBuiltArtifact(e, ".war") }

  predicate IsManifest(e: Entry, pattern: string) { e.isFile && Name(e) == pattern }

  /** The filters and renderings of the walks, as values. */
  function ManifestMatcher(pattern: string): Entry -> bool { e => IsManifest(e, pattern) }


  function Rendering(kind: BuildKind): Entry -> BuildFile { e => BuildFileOf(kind, e) }

  // ---------------------------------------------------------------- what a walk yields

  /** What one `for f in rglob(...): if keep(f): lst.append(render(f))` appends. */
  function Collect<T>(es: seq<Entry>, keep: Entry -> bool, render: Entry -> T): seq<T>
  {
    if |es| == 0 then []
    else
      Collect(es[..|es| - 1], keep, render)
      + (if keep(es[|es| - 1]) then [render(es[|es| - 1])] else [])
  }

  function DockerfilePaths(es: seq<Entry>): seq<string> {
    Collect(es, IsDockerfile, EntryPath)
  }

  function ChartDirs(es: seq<Entry>): seq<string> {
    Collect(es, IsChartFile, EntryDir)
  }

  /** Every `pom.xml` entry, then every `build.gradle*` entry. */
  function BuildFilesOf(es: seq<Entry>): seq<BuildFile> {
    Collect(es, IsPom, Rendering(Maven)) + Collect(es, IsGradleFile, Rendering(Gradle))
  }

  function JarPaths(es: seq<Entry>): seq<string> {
    Collect(es, IsJar, EntryPath)
  }

  function WarPaths(es: seq<Entry>): seq<string> {
    Collect(es, IsWar, EntryPath)
  }

  /** `for x in xs: if x not in known: known.append(x)`. */
  function AddNew(known: seq<string>, xs: seq<string>): seq<string>
  {
    if |xs| == 0 then known
    else
      var r := AddNew(known, xs[..|xs| - 1]);
      if xs[|xs| - 1] in r then r else r + [xs[|xs| - 1]]
  }

  /** The manifest paths in the order they are met: every match of the first pattern,
      then of the second, and so on. */
  function ManifestCandidates(es: seq<Entry>, patterns: seq<string>): seq<string>
  {
    if |patterns| == 0 then []
    else
      ManifestCandidates(es, patterns[..|patterns| - 1])
      + Collect(es, ManifestMatcher(patterns[|patterns| - 1]), EntryPath)
  }

  function Manifests(known: seq<string>, es: seq<Entry>): seq<string> {
    AddNew(known, ManifestCandidates(es, ManifestPatterns))
  }

  // ---------------------------------------------------------------- facts about a walk

  /** One more entry of the walk appends its rendering iff it is kept. */
  lemma CollectStep<T>(es: seq<Entry>, i: nat, keep: Entry -> bool, render: Entry -> T)
    requires i < |es|
    ensures Collect(es[..i + 1], keep, render)
            == Collect(es[..i], keep, render) + (if keep(es[i]) then [render(es[i])] else [])
  {
    assert es[..i + 1][..i] == es[..i];
  }

  /** A value is collected iff it renders some kept entry. */
  lemma {:induction false} CollectMembers<T>(es: seq<Entry>, keep: Entry -> bool, render: Entry -> T, x: T)
    ensures x in Collect(es, keep, render) <==> exists e :: e in es && keep(e) && render(e) == x
  {
    if |es| > 0 {
      var init := es[..|es| - 1];
      CollectMembers(init, keep, render, x);
      assert es == init + [es[|es| - 1]];
    }
  }

  /** Nothing is collected iff no entry is kept. */
  lemma {:induction false} CollectEmpty<T>(es: seq<Entry>, keep: Entry -> bool, render: Entry -> T)
    ensures Collect(es, keep, render) == [] <==> forall e :: e in es ==> !keep(e)
  {
    if |es| > 0 {
      var init := es[..|es| - 1];
      CollectEmpty(init, keep, render);
      assert es == init + [es[|es| - 1]];
    }
  }

  /** Each entry of `helm_charts` is the directory holding a `Chart.yaml` file, and the
      list is empty iff the walk meets no `Chart.yaml` file. */
  lemma ChartsAreParentDirectories(es: seq<Entry>)
    ensures forall d :: d in ChartDirs(es) ==>
              exists e :: e in es && IsChartFile(e) && d == PathText(ParentParts(e.parts))
    ensures ChartDirs(es) == [] <==> forall e :: e in es ==> !IsChartFile(e)
  {
    forall d | d in ChartDirs(es)
      ensures exists e :: e in es && IsChartFile(e) && d == PathText(ParentParts(e.parts))
    {
      CollectMembers(es, IsChartFile, EntryDir, d);
    }
    CollectEmpty(es, IsChartFile, EntryDir);
  }

  /** Every rendering is of the given kind. */
  lemma {:induction false} CollectKind(es: seq<Entry>, keep: Entry -> bool, kind: BuildKind)
    ensures forall b :: b in Collect(es, keep, Rendering(kind)) ==> b.kind == kind
  {
    if |es| > 0 {
      CollectKind(es[..|es| - 1], keep, kind);
    }
  }

  /** In `build_files` every maven entry comes before every gradle entry. */
  lemma MavenBeforeGradle(es: seq<Entry>)
    ensures var bs := BuildFilesOf(es);
            forall i, j :: 0 <= i < j < |bs| && bs[j].kind == Maven ==> bs[i].kind == Maven
  {
    var maven := Collect(es, IsPom, Rendering(Maven));
    var gradle := Collect(es, IsGradleFile, Rendering(Gradle));
    CollectKind(es, IsPom, Maven);
    CollectKind(es, IsGradleFile, Gradle);
    var bs := maven + gradle;
    forall i, j | 0 <= i < j < |bs| && bs[j].kind == Maven
      ensures bs[i].kind == Maven
    {
      assert bs[i] in maven;
    }
  }

  /** A build file's `path` is its `dir` followed by `/` and the file name. */
  lemma BuildFileDirIsParent(kind: BuildKind, e: Entry)
    requires |e.parts| >= 2
    ensures var b := BuildFileOf(kind, e); b.path == b.dir + "/" + Name(e)
  {
    JoinSnoc(ParentParts(e.parts), Name(e), "/");
  }

  /** A `.jar` (likewise a `.war`) is picked up iff it sits under a `build` segment or
      is a file under a `target` segment. */
  lemma JarMembers(es: seq<Entry>, p: string)
    ensures p in JarPaths(es) <==>
            exists e :: e in es && EndsWith(Name(e), ".jar") && EntryPath(e) == p
                        && ((e.isFile && "target" in e.parts) || "build" in e.parts)
  {
    CollectMembers(es, IsJar, EntryPath, p);
  }

  /** A directory named like a jar is collected when it lies under `build`. */
  lemma BuildDirectoryIsCollected()
    ensures JarPaths([Entry(["build", "libs.jar"], false)]) == ["build/libs.jar"]
  {
    var e := Entry(["build", "libs.jar"], false);
    assert ["build", "libs.jar"][1..] == ["libs.jar"];
    assert "libs.jar"[4..] == ".jar";
    assert [e][..0] == [];
    assert EntryPath(e) == "build" + "/" + "libs.jar";
    assert IsJar(e);
    assert Collect([e], IsJar, EntryPath) == Collect([e][..0], IsJar, EntryPath) + [EntryPath(e)];
    assert Collect([e][..0], IsJar, EntryPath) == [];
    assert "build" + "/" + "libs.jar" == "build/libs.jar";
  }

  /** `AddNew` keeps what was known, as a prefix, and adds exactly the new values. */
  lemma {:induction false} AddNewMembers(known: seq<string>, xs: seq<string>)
    ensures known <= AddNew(known, xs)
    ensures forall x :: x in AddNew(known, xs) <==> x in known || x in xs
  {
    if |xs| > 0 {
      var init := xs[..|xs| - 1];
      AddNewMembers(known, init);
      assert xs == init + [xs[|xs| - 1]];
    }
  }

  /** `AddNew` never introduces a duplicate. */
  lemma {:induction false} AddNewDistinct(known: seq<string>, xs: seq<string>)
    requires Distinct(known)
    ensures Distinct(AddNew(known, xs))
  {
    if |xs| > 0 {
      AddNewDistinct(known, xs[..|xs| - 1]);
    }
  }

  /** Adding values that are all known already changes nothing. */
  lemma {:induction false} AddNewKnown(known: seq<string>, xs: seq<string>)
    requires forall x :: x in xs ==> x in known
    ensures AddNew(known, xs) == known
  {
    if |xs| > 0 {
      var init := xs[..|xs| - 1];
      assert forall x :: x in init ==> x in xs;
      AddNewKnown(known, init);
      assert xs[|xs| - 1] in xs;
    }
  }

  /** A second manifest search over the same walk adds nothing, and no manifest is
      ever listed twice. */
  lemma ManifestsIdempotent(known: seq<string>, es: seq<Entry>)
    ensures Manifests(Manifests(known, es), es) == Manifests(known, es)
    ensures Distinct(known) ==> Distinct(Manifests(known, es))
  {
    var cs := ManifestCandidates(es, ManifestPatterns);
    AddNewMembers(known, cs);
    AddNewKnown(AddNew(known, cs), cs);
    if Distinct(known) {
      AddNewDistinct(known, cs);
    }
  }

  /** One more matching entry extends the candidate list by its path. */
  lemma ManifestStep(es: seq<Entry>, patterns: seq<string>, j: nat, i: nat, known: seq<string>)
    requires j < |patterns| && i < |es|
    ensures var keep := ManifestMatcher(patterns[j]);
            var before := ManifestCandidates(es, patterns[..j]) + Collect(es[..i], keep, EntryPath);
            AddNew(known, ManifestCandidates(es, patterns[..j]) + Collect(es[..i + 1], keep, EntryPath))
            == if IsManifest(es[i], patterns[j]) && EntryPath(es[i]) !in AddNew(known, before)
               then AddNew(known, before) + [EntryPath(es[i])]
               else AddNew(known, before)
  {
    var keep := ManifestMatcher(patterns[j]);
    var c := ManifestCandidates(es, patterns[..j]);
    CollectStep(es, i, keep, EntryPath);
    if IsManifest(es[i], patterns[j]) {
      var xs := c + Collect(es[..i + 1], keep, EntryPath);
      assert xs == (c + Collect(es[..i], keep, EntryPath)) + [EntryPath(es[i])];
      assert xs[..|xs| - 1] == c + Collect(es[..i], keep, EntryPath);
    } else {
      assert c + Collect(es[..i + 1], keep, EntryPath) == c + Collect(es[..i], keep, EntryPath);
    }
  }

  lemma ManifestPatternStep(es: seq<Entry>, patterns: seq<string>, j: nat)
    requires j < |patterns|
    ensures ManifestCandidates(es, patterns[..j + 1])
            == ManifestCandidates(es, patterns[..j]) + Collect(es, ManifestMatcher(patterns[j]), EntryPath)
  {
    assert patterns[..j + 1][..j] == patterns[..j];
  }

  // ---------------------------------------------------------------- builds

  /** Whether one build call reports success: only an exit code of 0 does; a failed
      exit, a timeout and any exception all report failure. */
  predicate BuildSucceeded(o: ProcOutcome) {
    o.Exited? && o.code == 0
  }

  /** `cmd.split()` of the command `_build_maven` and `_build_gradle` run: the
      configured maven command or `mvn clean package -DskipTests`; `./gradlew clean
      build -x test` when the project has a gradle wrapper, else `gradle clean build -x
      test`. The fixed commands are written out already split. */
  function BuildArgv(kind: BuildKind, configured: Option<string>, hasWrapper: bool): (argv: seq<string>)
    ensures kind == Maven && configured.Some? ==> argv == Words(configured.value)
    ensures kind == Maven && configured.None? ==> argv == ["mvn", "clean", "package", "-DskipTests"]
    ensures kind == Gradle ==> argv == [if hasWrapper then "./gradlew" else "gradle", "clean", "build", "-x", "test"]
  {
    match kind
    case Maven =>
      (match configured
       case Some(cmd) => Words(cmd)
       case None => ["mvn", "clean", "package", "-DskipTests"])
    case Gradle => [if hasWrapper then "./gradlew" else "gradle", "clean", "build", "-x", "test"]
  }

  /** `subprocess.run(cmd.split(), cwd=dir, timeout=600)` for one project. */
  function BuildCall(kind: BuildKind, dir: string, configured: Option<string>, hasWrapper: bool): Invocation {
    Invocation(BuildArgv(kind, configured, hasWrapper), 600, "", dir)
  }

  /** The build call for one `build_files` entry; `wrapperIn(dir)` says whether
      `dir/gradlew` exists. */
  function BuildInvocation(b: BuildFile, configured: Option<string>, wrapperIn: string -> bool): Invocation {
    BuildCall(b.kind, b.dir, configured, wrapperIn(b.dir))
  }

  /** The build calls `build_artifacts` makes: one per build file, in order. */
  function BuildPlan(bs: seq<BuildFile>, configured: Option<string>, wrapperIn: string -> bool): (plan: seq<Invocation>)
    ensures |plan| == |bs|
    ensures forall i :: 0 <= i < |bs| ==> plan[i] == BuildInvocation(bs[i], configured, wrapperIn)
  {
    if |bs| == 0 then [] else BuildPlan(bs[..|bs| - 1], configured, wrapperIn) + [BuildInvocation(bs[|bs| - 1], configured, wrapperIn)]
  }

  lemma BuildPlanStep(bs: seq<BuildFile>, i: nat, configured: Option<string>, wrapperIn: string -> bool)
    requires i < |bs|
    ensures BuildPlan(bs[..i + 1], configured, wrapperIn)
            == BuildPlan(bs[..i], configured, wrapperIn) + [BuildInvocation(bs[i], configured, wrapperIn)]
  {
    assert bs[..i + 1][..i] == bs[..i];
  }

  /** `success &= ...` over the calls: true iff every call exited with 0. */
  predicate AllBuilt(run: Runner, calls: seq<Invocation>) {
    forall k :: 0 <= k < |calls| ==> BuildSucceeded(run(calls[k]))
  }

  lemma AllBuiltStep(run: Runner, calls: seq<Invocation>, call: Invocation)
    ensures AllBuilt(run, calls + [call]) <==> AllBuilt(run, calls) && BuildSucceeded(run(call))
  {
    if AllBuilt(run, calls) && BuildSucceeded(run(call)) {
      forall k | 0 <= k < |calls| + 1
        ensures BuildSucceeded(run((calls + [call])[k]))
      {
        if k < |calls| {
          assert (calls + [call])[k] == calls[k];
        }
      }
    }
    if AllBuilt(run, calls + [call]) {
      assert (calls + [call])[|calls|] == call;
      forall k | 0 <= k < |calls|
        ensures BuildSucceeded(run(calls[k]))
      {
        assert (calls + [call])[k] == calls[k];
      }
    }
  }

  /** The seven lists as `detect` hands them back. */
  datatype Inventory = Inventory(
    dockerfiles: seq<string>,
    helmCharts: seq<string>,
    buildFiles: seq<BuildFile>,
    jarFiles: seq<string>,
    warFiles: seq<string>,
    dockerImages: seq<string>,
    kubernetesManifests: seq<string>)

  // ---------------------------------------------------------------- the detector

  class ArtifactDetector {
    /** `config['build']['enabled']` and `config['build'].get('command')`. */
    const buildEnabled: bool
    const buildCommand: Option<string>

    var dockerfiles: seq<string>
    var helmCharts: seq<string>
    var buildFiles: seq<BuildFile>
    var jarFiles: seq<string>
    var warFiles: seq<string>
    var dockerImages: seq<string>
    var kubernetesManifests: seq<string>

    /** The one list the detector keeps free of duplicates. */
    predicate Valid()
      reads this
    {
      Distinct(kubernetesManifests)
    }

    function Snapshot(): Inventory
      reads this
    {
      Inventory(dockerfiles, helmCharts, buildFiles, jarFiles, warFiles, dockerImages, kubernetesManifests)
    }

    /** A fresh detector holds seven empty lists. */
    constructor (buildEnabled: bool, buildCommand: Option<string>)
      ensures this.buildEnabled == buildEnabled && this.buildCommand == buildCommand
      ensures Snapshot() == Inventory([], [], [], [], [], [], [])
      ensures Valid()
    {
      this.buildEnabled := buildEnabled;
      this.buildCommand := buildCommand;
      dockerfiles := [];
      helmCharts := [];
      buildFiles := [];
      jarFiles := [];
      warFiles := [];
      dockerImages := [];
      kubernetesManifests := [];
    }

    /** `detect`: every finder once, in order; each appends to what is already there,
        so only the manifest list is unchanged by a second call over the same walk. */
    method Detect(walk: seq<Entry>) returns (artifacts: Inventory)
      requires Valid()
      modifies this
      ensures Valid()
      ensures dockerfiles == old(dockerfiles) + DockerfilePaths(walk)
      ensures helmCharts == old(helmCharts) + ChartDirs(walk)
      ensures buildFiles == old(buildFiles) + BuildFilesOf(walk)
      ensures jarFiles == old(jarFiles) + JarPaths(walk)
      ensures warFiles == old(warFiles) + WarPaths(walk)
      ensures dockerImages == old(dockerImages)
      ensures kubernetesManifests == Manifests(old(kubernetesManifests), walk)
      ensures artifacts == Snapshot()
    {
      FindDockerfiles(walk);
      FindHelmCharts(walk);
      FindBuildFiles(walk);
      FindJavaArtifacts(walk);
      FindKubernetesManifests(walk);
      artifacts := Snapshot();
    }

    method FindDockerfiles(walk: seq<Entry>)
      modifies this`dockerfiles
      ensures dockerfiles == old(dockerfiles) + DockerfilePaths(walk)
    {
      for i := 0 to |walk|
        invariant dockerfiles == old(dockerfiles) + DockerfilePaths(walk[..i])
      {
        CollectStep(walk, i, IsDockerfile, EntryPath);
        if IsDockerfile(walk[i]) {
          dockerfiles := dockerfiles + [EntryPath(walk[i])];
        }
      }
      assert walk[..|walk|] == walk;
    }

    /** Records the directory of each `Chart.yaml`, not the file. */
    method FindHelmCharts(walk: seq<Entry>)
      modifies this`helmCharts
      ensures helmCharts == old(helmCharts) + ChartDirs(walk)
    {
      for i := 0 to |walk|
        invariant helmCharts == old(helmCharts) + ChartDirs(walk[..i])
      {
        CollectStep(walk, i, IsChartFile, EntryDir);
        if IsChartFile(walk[i]) {
          helmCharts := helmCharts + [EntryDir(walk[i])];
        }
      }
      assert walk[..|walk|] == walk;
    }

    /** One walk for `pom.xml`, then one for `build.gradle*`. */
    method FindBuildFiles(walk: seq<Entry>)
      modifies this`buildFiles
      ensures buildFiles == old(buildFiles) + BuildFilesOf(walk)
    {
      FindBuildFilesOf(walk, Maven, IsPom);
      FindBuildFilesOf(walk, Gradle, IsGradleFile);
    }

    /** One walk of `_find_build_files`, recording each match as a build file of `kind`. */
    method FindBuildFilesOf(walk: seq<Entry>, kind: BuildKind, matches: Entry -> bool)
      modifies this`buildFiles
      ensures buildFiles == old(buildFiles) + Collect(walk, matches, Rendering(kind))
    {
      var render := Rendering(kind);
      for i := 0 to |walk|
        invariant buildFiles == old(buildFiles) + Collect(walk[..i], matches, render)
      {
        CollectStep(walk, i, matches, render);
        if matches(walk[i]) {
          buildFiles := buildFiles + [BuildFileOf(kind, walk[i])];
        }
      }
      assert walk[..|walk|] == walk;
    }

    /** One walk for `*.jar`, then one for `*.war`. */
    method FindJavaArtifacts(walk: seq<Entry>)
      modifies this`jarFiles, this`warFiles
      ensures jarFiles == old(jarFiles) + JarPaths(walk)
      ensures warFiles == old(warFiles) + WarPaths(walk)
    {
      FindJars(walk);
      FindWars(walk);
    }

    /** The `*.jar` walk of `_find_java_artifacts`. */
    method FindJars(walk: seq<Entry>)
      modifies this`jarFiles
      ensures jarFiles == old(jarFiles) + JarPaths(walk)
    {
      for i := 0 to |walk|
        invariant jarFiles == old(jarFiles) + JarPaths(walk[..i])
      {
        CollectStep(walk, i, IsJar, EntryPath);
        if IsJar(walk[i]) {
          jarFiles := jarFiles + [EntryPath(walk[i])];
        }
      }
      assert walk[..|walk|] == walk;
    }

    /** The `*.war` walk of `_find_java_artifacts`. */
    method FindWars(walk: seq<Entry>)
      modifies this`warFiles
      ensures warFiles == old(warFiles) + WarPaths(walk)
    {
      for i := 0 to |walk|
        invariant warFiles == old(warFiles) + WarPaths(walk[..i])
      {
        CollectStep(walk, i, IsWar, EntryPath);
        if IsWar(walk[i]) {
          warFiles := warFiles + [EntryPath(walk[i])];
        }
      }
      assert walk[..|walk|] == walk;
    }

    /** One walk per pattern; a path is appended only if it is not listed yet. */
    method FindKubernetesManifests(walk: seq<Entry>)
      requires Valid()
      modifies this`kubernetesManifests
      ensures Valid()
      ensures kubernetesManifests == Manifests(old(kubernetesManifests), walk)
    {
      var patterns := ManifestPatterns;
      for j := 0 to |patterns|
        invariant kubernetesManifests == AddNew(old(kubernetesManifests), ManifestCandidates(walk, patterns[..j]))
      {
        var pattern := patterns[j];
        assert ManifestCandidates(walk, patterns[..j]) + Collect(walk[..0], ManifestMatcher(pattern), EntryPath)
               == ManifestCandidates(walk, patterns[..j]);
        for i := 0 to |walk|
          invariant kubernetesManifests
                    == AddNew(old(kubernetesManifests),
                              ManifestCandidates(walk, patterns[..j])
                              + Collect(walk[..i], ManifestMatcher(pattern), EntryPath))
        {
          ManifestStep(walk, patterns, j, i, old(kubernetesManifests));
          if IsManifest(walk[i], pattern) {
            var path := EntryPath(walk[i]);
            if path !in kubernetesManifests {
              kubernetesManifests := kubernetesManifests + [path];
            }
          }
        }
        assert walk[..|walk|] == walk;
        ManifestPatternStep(walk, patterns, j);
      }
      assert patterns[..|patterns|] == patterns;
      ManifestsIdempotent(old(kubernetesManifests), walk);
    }

    /** `build_artifacts`: nothing is attempted when building is disabled or no build
        file was found; otherwise every build file is built in order, even after a
        failure, the result is true iff every build succeeded, and only then is the
        repository (as it is after the builds) searched again for jars and wars. */
    method BuildArtifacts(run: Runner, wrapperIn: string -> bool, rebuilt: seq<Entry>)
      returns (success: bool, attempted: seq<Invocation>)
      modifies this`jarFiles, this`warFiles
      ensures !buildEnabled || buildFiles == [] ==>
                !success && attempted == [] && jarFiles == old(jarFiles) && warFiles == old(warFiles)
      ensures buildEnabled && buildFiles != [] ==>
                && attempted == BuildPlan(buildFiles, buildCommand, wrapperIn)
                && (success <==> AllBuilt(run, attempted))
                && jarFiles == old(jarFiles) + (if success then JarPaths(rebuilt) else [])
                && warFiles == old(warFiles) + (if success then WarPaths(rebuilt) else [])
    {
      attempted := [];
      if !buildEnabled {
        return false, attempted;
      }
      if buildFiles == [] {
        return false, attempted;
      }
      success := true;
      for i := 0 to |buildFiles|
        invariant jarFiles == old(jarFiles) && warFiles == old(warFiles)
        invariant attempted == BuildPlan(buildFiles[..i], buildCommand, wrapperIn)
        invariant success <==> AllBuilt(run, attempted)
      {
        var ok := BuildOne(buildFiles[i], run, wrapperIn);
        var call := BuildInvocation(buildFiles[i], buildCommand, wrapperIn);
        BuildPlanStep(buildFiles, i, buildCommand, wrapperIn);
        AllBuiltStep(run, attempted, call);
        attempted := attempted + [call];
        success := success && ok;
      }
      assert buildFiles[..|buildFiles|] == buildFiles;
      if success {
        FindJavaArtifacts(rebuilt);
      }
    }

    /** The dispatch on the build file's type. */
    method BuildOne(b: BuildFile, run: Runner, wrapperIn: string -> bool) returns (ok: bool)
      ensures ok <==> BuildSucceeded(run(BuildInvocation(b, buildCommand, wrapperIn)))
    {
      match b.kind {
        case Maven => ok := BuildMaven(b.dir, run);
        case Gradle => ok := BuildGradle(b.dir, run, wrapperIn(b.dir));
      }
    }

    /** `_build_maven`: success iff the configured (or default) maven command exits 0. */
    method BuildMaven(dir: string, run: Runner) returns (ok: bool)
      ensures ok <==> BuildSucceeded(run(BuildCall(Maven, dir, buildCommand, false)))
    {
      var argv := match buildCommand
        case Some(cmd) => Words(cmd)
        case None => ["mvn", "clean", "package", "-DskipTests"];
      var outcome := run(Invocation(argv, 600, "", dir));
      ok := outcome.Exited? && outcome.code == 0;
    }

    /** `_build_gradle`: success iff the wrapper (or `gradle`) build exits 0. */
    method BuildGradle(dir: string, run: Runner, hasWrapper: bool) returns (ok: bool)
      ensures ok <==> BuildSucceeded(run(BuildCall(Gradle, dir, buildCommand, hasWrapper)))
    {
      var argv := [if hasWrapper then "./gradlew" else "gradle", "clean", "build", "-x", "test"];
      var outcome := run(Invocation(argv, 600, "", dir));
      ok := outcome.Exited? && outcome.code == 0;
    }
  }
}
