/** The container scanner: lists the locally built images (falling back to one
    public image), then runs trivy and grype once per image. */
module ContainerScanner {
  import opened Base
  import opened Text

  /** The tools run when the configuration names none. */
  const DefaultTools: seq<string> := ["trivy", "grype"]

  /** The image scanned when no usable local image is listed. */
  const FallbackImage: string := "alpine:latest"

  /** The result dictionary: always these two lists. */
  datatype ContainerResults = ContainerResults(trivy: seq<Record>, grype: seq<Record>)

  function ListImagesCall(): (c: Invocation)
    ensures |c.argv| >= 1 && c.argv[0] == "docker" && c.timeout == 30 && c.stdin == ""
  {
    Invocation(["docker", "images", "--format", "{{.Repository}}:{{.Tag}}"], 30, "", "")
  }

  function TrivyImageCall(image: string): (c: Invocation)
    ensures |c.argv| >= 1 && c.argv[0] == "trivy" && c.argv[|c.argv| - 1] == image && c.timeout == 600 && c.stdin == ""
  {
    Invocation(["trivy", "image", "--format", "json", "--scanners", "vuln", image], 600, "", "")
  }

  function GrypeCall(image: string): (c: Invocation)
    ensures |c.argv| >= 2 && c.argv[0] == "grype" && c.argv[1] == image && c.timeout == 600 && c.stdin == ""
  {
    Invocation(["grype", image, "--output", "json"], 600, "", "")
  }

  // ---------------------------------------------------------------- images

  /** A listed line names an image unless it is empty or has an untagged part. */
  predicate Usable(line: string) {
    line != "" && !Contains(line, "<none>")
  }

  /** The usable lines, in order. */
  function UsableLines(lines: seq<string>): seq<string>
  {
    if |lines| == 0 then []
    else UsableLines(lines[..|lines| - 1]) + (if Usable(lines[|lines| - 1]) then [lines[|lines| - 1]] else [])
  }

  /** The lines `stdout.strip().split('\n')` of a listing that exited with 0. */
  function ListedLines(o: ProcOutcome): seq<string> {
    if o.Exited? && o.code == 0 then SplitOn(Strip(o.stdout), '\n') else []
  }

  /** The images `_identify_images` settles on for a listing outcome. */
  function ImagesFor(o: ProcOutcome): seq<string> {
    var found := UsableLines(ListedLines(o));
    if found == [] then [FallbackImage] else found
  }

  lemma {:induction false} UsableLinesMembers(lines: seq<string>, x: string)
    ensures x in UsableLines(lines) <==> x in lines && Usable(x)
  {
    if |lines| > 0 {
      var init := lines[..|lines| - 1];
      UsableLinesMembers(init, x);
      assert lines == init + [lines[|lines| - 1]];
    }
  }

  /** The images are never an empty list, and unless they are exactly the fallback
      they are non-empty lines of a successful listing without `<none>`. */
  lemma ImagesAreListedOrFallback(o: ProcOutcome)
    ensures ImagesFor(o) != []
    ensures ImagesFor(o) == [FallbackImage]
            || (o.Exited? && o.code == 0
                && forall x :: x in ImagesFor(o) ==> x in SplitOn(Strip(o.stdout), '\n') && Usable(x))
  {
    var found := UsableLines(ListedLines(o));
    if found != [] {
      forall x | x in found
        ensures x in SplitOn(Strip(o.stdout), '\n') && Usable(x)
      {
        UsableLinesMembers(ListedLines(o), x);
      }
    }
  }

  /** A listing that fails, times out or raises falls back to the public image. */
  lemma FailedListingFallsBack(o: ProcOutcome)
    requires !(o.Exited? && o.code == 0)
    ensures ImagesFor(o) == [FallbackImage]
  {
  }

  /** `_identify_images`: keep the usable lines of a successful listing, in order; the
      Dockerfiles it is given are not looked at. */
  method IdentifyImages(dockerfiles: seq<string>, run: Runner) returns (images: seq<string>)
    ensures images == ImagesFor(run(ListImagesCall()))
  {
    images := [];
    var listing := run(ListImagesCall());
    if listing.Exited? && listing.code == 0 {
      var lines := SplitOn(Strip(listing.stdout), '\n');
      for i := 0 to |lines|
        invariant images == UsableLines(lines[..i])
      {
        assert lines[..i + 1][..i] == lines[..i];
        if lines[i] != "" && !Contains(lines[i], "<none>") {
          images := images + [lines[i]];
        }
      }
      assert lines[..|lines|] == lines;
    }
    if images == [] {
      images := [FallbackImage];
    }
  }

  // ---------------------------------------------------------------- classifiers

  /** `_run_trivy_image`: only exit 0 completes; any other exit code fails. */
  function TrivyImage(image: string, run: Runner, parse: Parser): (r: Record)
    ensures r.target == image
    ensures var o := run(TrivyImageCall(image));
            && (r.status == Completed <==> o.Exited? && o.code == 0)
            && (r.status == Completed ==> r == ParsedRecord(image, o.stdout, parse))
            && (r.status == Failed <==> o.Exited? && o.code != 0)
            && (r.status == Failed ==> r.body == ErrorText(o.stderr))
            && (!o.Exited? ==> r.status == RaisedStatus(o)
                               && r.body == ErrorText(RaisedText(o, "Trivy scan timed out", "Trivy not installed")))
  {
    ToolRecord(image, run(TrivyImageCall(image)), {0}, parse, "Trivy scan timed out", "Trivy not installed")
  }

  /** `_run_grype_image`: only exit 0 completes; any other exit code fails. */
  function GrypeImage(image: string, run: Runner, parse: Parser): (r: Record)
    ensures r.target == image
    ensures var o := run(GrypeCall(image));
            && (r.status == Completed <==> o.Exited? && o.code == 0)
            && (r.status == Completed ==> r == ParsedRecord(image, o.stdout, parse))
            && (r.status == Failed <==> o.Exited? && o.code != 0)
            && (r.status == Failed ==> r.body == ErrorText(o.stderr))
            && (!o.Exited? ==> r.status == RaisedStatus(o)
                               && r.body == ErrorText(RaisedText(o, "Grype scan timed out", "Grype not installed")))
  {
    ToolRecord(image, run(GrypeCall(image)), {0}, parse, "Grype scan timed out", "Grype not installed")
  }

  // ---------------------------------------------------------------- fan-out

  /** One record per image, in order, from each configured tool; a tool the
      configuration does not name leaves its list empty. */
  predicate ScansEachImage(r: ContainerResults, tools: seq<string>, images: seq<string>, run: Runner, parse: Parser) {
    && |r.trivy| == (if "trivy" in tools then |images| else 0)
    && |r.grype| == (if "grype" in tools then |images| else 0)
    && (forall i :: 0 <= i < |r.trivy| ==> r.trivy[i] == TrivyImage(images[i], run, parse))
    && (forall i :: 0 <= i < |r.grype| ==> r.grype[i] == GrypeImage(images[i], run, parse))
  }

  /** `scan`: identify the images, then scan them. The images do not depend on the
      Dockerfiles. */
  method Scan(tools: seq<string>, dockerfiles: seq<string>, run: Runner, parse: Parser) returns (r: ContainerResults)
    ensures ScansEachImage(r, tools, ImagesFor(run(ListImagesCall())), run, parse)
  {
    var images := IdentifyImages(dockerfiles, run);
    r := ScanImages(tools, images, run, parse);
  }

  /** The loop of `scan`. */
  method ScanImages(tools: seq<string>, images: seq<string>, run: Runner, parse: Parser) returns (r: ContainerResults)
    ensures ScansEachImage(r, tools, images, run, parse)
  {
    var trivy: seq<Record> := [];
    var grype: seq<Record> := [];
    for i := 0 to |images|
      invariant |trivy| == (if "trivy" in tools then i else 0)
      invariant |grype| == (if "grype" in tools then i else 0)
      invariant forall k :: 0 <= k < |trivy| ==> trivy[k] == TrivyImage(images[k], run, parse)
      invariant forall k :: 0 <= k < |grype| ==> grype[k] == GrypeImage(images[k], run, parse)
    {
      if "trivy" in tools {
        trivy := trivy + [TrivyImage(images[i], run, parse)];
      }
      if "grype" in tools {
        grype := grype + [GrypeImage(images[i], run, parse)];
      }
    }
    r := ContainerResults(trivy, grype);
  }
}
